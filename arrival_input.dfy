/** parse_arrival_input: the tolerant reader of arrival schedules written
    as `t:v,v,v|v,v;t:...`, giving a map from iteration to the list of max
    vectors arriving then. Python's str.split, str.strip and int are
    modelled as the functions Split, Strip and ParseInt. */
module ArrivalInput {
  import opened Vectors

  // ---------------------------------------------------------------------
  // str.strip
  // ---------------------------------------------------------------------

  /** The characters str.isspace accepts. */
  predicate IsSpace(c: char) {
    var x := c as int;
    || x == 0x20 || 0x09 <= x <= 0x0d || 0x1c <= x <= 0x1f || x == 0x85 || x == 0xa0
    || x == 0x1680 || 0x2000 <= x <= 0x200a || x == 0x2028 || x == 0x2029
    || x == 0x202f || x == 0x205f || x == 0x3000
  }

  /** s without its leading whitespace: the longest suffix that does not start with a space. */
  function TrimStart(s: string): (r: string)
    ensures |r| <= |s| && r == s[|s| - |r|..]
    ensures forall k :: 0 <= k < |s| - |r| ==> IsSpace(s[k])
    ensures r != [] ==> !IsSpace(r[0])
    decreases |s|
  {
    if s != [] && IsSpace(s[0]) then TrimStart(s[1..]) else s
  }

  /** s without its trailing whitespace: the longest prefix that does not end with a space. */
  function TrimEnd(s: string): (r: string)
    ensures |r| <= |s| && r == s[..|r|]
    ensures forall k :: |r| <= k < |s| ==> IsSpace(s[k])
    ensures r != [] ==> !IsSpace(r[|r| - 1])
    decreases |s|
  {
    if s != [] && IsSpace(s[|s| - 1]) then TrimEnd(s[..|s| - 1]) else s
  }

  /** `s.strip()`: the part of s between its leading and trailing whitespace. */
  function Strip(s: string): (r: string)
    ensures r != [] ==> !IsSpace(r[0]) && !IsSpace(r[|r| - 1])
    ensures r == [] <==> forall k :: 0 <= k < |s| ==> IsSpace(s[k])
  {
    TrimEnd(TrimStart(s))
  }

  /** Text with no space at either end is its own strip. */
  lemma StripTight(s: string)
    requires s != [] ==> !IsSpace(s[0]) && !IsSpace(s[|s| - 1])
    ensures Strip(s) == s
  {
  }

  // ---------------------------------------------------------------------
  // str.split
  // ---------------------------------------------------------------------

  /** `sep.join(ps)`. */
  function Join(ps: seq<string>, sep: char): string
    decreases |ps|
  {
    if |ps| == 0 then [] else if |ps| == 1 then ps[0] else ps[0] + [sep] + Join(ps[1..], sep)
  }

  /** `s.split(sep)` for one separator character: the maximal sep-free pieces
      between separators, at least one, and joining them gives s back. */
  function Split(s: string, sep: char): (r: seq<string>)
    ensures |r| >= 1
    ensures forall k :: 0 <= k < |r| ==> sep !in r[k]
    ensures Join(r, sep) == s
    decreases |s|
  {
    if |s| == 0 then [[]]
    else
      var rest := Split(s[1..], sep);
      if s[0] == sep then
        assert s == [sep] + s[1..];
        [[]] + rest
      else
        var r := [[s[0]] + rest[0]] + rest[1..];
        assert r[1..] == rest[1..];
        assert s == [s[0]] + s[1..];
        r
  }

  /** Splitting a piece free of the separator followed by more text. */
  lemma {:induction false} SplitCons(a: string, b: string, sep: char)
    requires sep !in a
    ensures Split(a + [sep] + b, sep) == [a] + Split(b, sep)
    decreases |a|
  {
    if a != [] {
      SplitCons(a[1..], b, sep);
      assert (a + [sep] + b)[1..] == a[1..] + [sep] + b;
      assert [a[0]] + a[1..] == a;
    } else {
      assert [] + [sep] + b == [sep] + b;
      assert ([sep] + b)[1..] == b;
    }
  }

  lemma {:induction false} SplitNone(a: string, sep: char)
    requires sep !in a
    ensures Split(a, sep) == [a]
    decreases |a|
  {
    if a != [] {
      SplitNone(a[1..], sep);
      assert [a[0]] + a[1..] == a;
    }
  }

  /** Round trip: splitting the join of separator-free pieces gives the pieces back. */
  lemma {:induction false} SplitJoin(ps: seq<string>, sep: char)
    requires |ps| >= 1 && forall k :: 0 <= k < |ps| ==> sep !in ps[k]
    ensures Split(Join(ps, sep), sep) == ps
    decreases |ps|
  {
    if |ps| == 1 {
      SplitNone(ps[0], sep);
    } else {
      SplitJoin(ps[1..], sep);
      SplitCons(ps[0], Join(ps[1..], sep), sep);
      assert [ps[0]] + ps[1..] == ps;
    }
  }

  /** The first position of c in s. */
  function FirstIndex(s: string, c: char): (i: nat)
    requires c in s
    ensures i < |s| && s[i] == c && c !in s[..i]
    decreases |s|
  {
    if s[0] == c then 0
    else
      var j := FirstIndex(s[1..], c);
      assert s[..j + 1] == [s[0]] + s[1..][..j];
      j + 1
  }

  /** `s.split(c, 1)` when c occurs: the text before the first c and the text after it. */
  datatype Halves = Halves(before: string, after: string)

  function SplitOnce(s: string, c: char): (r: Halves)
    requires c in s
    ensures s == r.before + [c] + r.after && c !in r.before
  {
    var i := FirstIndex(s, c);
    assert s == s[..i] + [c] + s[i + 1..];
    Halves(s[..i], s[i + 1..])
  }

  // ---------------------------------------------------------------------
  // int
  // ---------------------------------------------------------------------

  predicate IsDigit(c: char) {
    '0' <= c <= '9'
  }

  predicate AllDigits(s: string) {
    forall k :: 0 <= k < |s| ==> IsDigit(s[k])
  }

  /** The decimal literals int accepts here: an optional sign and at least one ASCII digit. */
  predicate IsIntLiteral(s: string) {
    if |s| >= 1 && (s[0] == '+' || s[0] == '-') then |s| >= 2 && AllDigits(s[1..])
    else |s| >= 1 && AllDigits(s)
  }

  /** The value of a string of decimal digits. */
  function DigitsValue(s: string): nat
    requires AllDigits(s)
    decreases |s|
  {
    if s == [] then 0 else DigitsValue(s[..|s| - 1]) * 10 + (s[|s| - 1] as int - '0' as int)
  }

  /** `int(s)`, None where Python raises ValueError. */
  function ParseInt(s: string): (r: Option<int>)
    ensures r.Some? <==> IsIntLiteral(s)
    ensures r.Some? && s[0] != '-' ==> r.value >= 0
  {
    if !IsIntLiteral(s) then None
    else if s[0] == '-' then Some(0 - DigitsValue(s[1..]) as int)
    else if s[0] == '+' then Some(DigitsValue(s[1..]))
    else Some(DigitsValue(s))
  }

  /** The decimal digits of n, most significant first, as str(n) writes them. */
  function NatToString(n: nat): (s: string)
    ensures |s| >= 1 && AllDigits(s)
  {
    var d := ['0' + ((n % 10) as char)];
    if n < 10 then d else NatToString(n / 10) + d
  }

  /** `str(n)`. */
  function IntToString(n: int): string {
    if n < 0 then "-" + NatToString(-n) else NatToString(n)
  }

  lemma {:induction false} DigitsOfNat(n: nat)
    ensures DigitsValue(NatToString(n)) == n
  {
    var s := NatToString(n);
    if n >= 10 {
      DigitsOfNat(n / 10);
      assert s[..|s| - 1] == NatToString(n / 10);
    }
  }

  /** Round trip: int(str(n)) == n. */
  lemma ParseIntToString(n: int)
    ensures ParseInt(IntToString(n)) == Some(n)
  {
    var s := IntToString(n);
    if n < 0 {
      DigitsOfNat(-n);
      assert s[1..] == NatToString(-n);
    } else {
      DigitsOfNat(n);
    }
  }

  // ---------------------------------------------------------------------
  // Gathering over a list
  // ---------------------------------------------------------------------

  /** f(x) for each x of xs, concatenated in order: what a loop that extends
      a list by f(x) for each x builds. */
  function Gather<T, U>(xs: seq<T>, f: T -> seq<U>): seq<U>
    decreases |xs|
  {
    if xs == [] then [] else Gather(xs[..|xs| - 1], f) + f(xs[|xs| - 1])
  }

  /** One more element extends the gathered list by its own part. */
  lemma GatherStep<T, U>(xs: seq<T>, q: nat, f: T -> seq<U>)
    requires q < |xs|
    ensures Gather(xs[..q + 1], f) == Gather(xs[..q], f) + f(xs[q])
  {
    assert xs[..q + 1][..q] == xs[..q];
  }

  /** Gathering over consecutive runs concatenates. */
  lemma {:induction false} GatherAppend<T, U>(a: seq<T>, b: seq<T>, f: T -> seq<U>)
    ensures Gather(a + b, f) == Gather(a, f) + Gather(b, f)
    decreases |b|
  {
    if b == [] {
      assert a + b == a;
    } else {
      var n := |b| - 1;
      GatherAppend(a, b[..n], f);
      assert (a + b)[..|a + b| - 1] == a + b[..n];
    }
  }

  /** An element that yields nothing can be left out. */
  lemma GatherDrop<T, U>(a: seq<T>, x: T, b: seq<T>, f: T -> seq<U>)
    requires f(x) == []
    ensures Gather(a + [x] + b, f) == Gather(a, f) + Gather(b, f)
  {
    var ax := a + [x];
    GatherAppend(ax, b, f);
    assert ax[..|ax| - 1] == a;
    assert Gather(ax, f) == Gather(a, f) + f(x);
  }

  /** When each x yields exactly the matching y, gathering gives back ys. */
  lemma {:induction false} GatherInverse<T, U>(xs: seq<T>, ys: seq<U>, f: T -> seq<U>)
    requires |xs| == |ys| && forall k :: 0 <= k < |xs| ==> f(xs[k]) == [ys[k]]
    ensures Gather(xs, f) == ys
    decreases |xs|
  {
    if xs != [] {
      var n := |xs| - 1;
      GatherInverse(xs[..n], ys[..n], f);
      assert ys[..n] + [ys[n]] == ys;
    }
  }

  /** Like Gather, but None as soon as one f(x) is None: a comprehension
      that raises on a bad element. */
  function GatherSome<T, U>(xs: seq<T>, f: T -> Option<seq<U>>): Option<seq<U>>
    decreases |xs|
  {
    if xs == [] then Some([])
    else
      match GatherSome(xs[..|xs| - 1], f)
      case None => None
      case Some(us) =>
        match f(xs[|xs| - 1])
        case None => None
        case Some(u) => Some(us + u)
  }

  /** The comprehension succeeds exactly when every element does. */
  lemma {:induction false} GatherSomeDefined<T, U>(xs: seq<T>, f: T -> Option<seq<U>>)
    ensures GatherSome(xs, f).Some? <==> forall k :: 0 <= k < |xs| ==> f(xs[k]).Some?
    decreases |xs|
  {
    if xs != [] {
      var n := |xs| - 1;
      GatherSomeDefined(xs[..n], f);
      assert forall k :: 0 <= k < n ==> xs[..n][k] == xs[k];
    }
  }

  /** When each x yields exactly the matching y, the comprehension gives back ys. */
  lemma {:induction false} GatherSomeInverse<T, U>(xs: seq<T>, ys: seq<U>, f: T -> Option<seq<U>>)
    requires |xs| == |ys| && forall k :: 0 <= k < |xs| ==> f(xs[k]) == Some([ys[k]])
    ensures GatherSome(xs, f) == Some(ys)
    decreases |xs|
  {
    if xs != [] {
      var n := |xs| - 1;
      GatherSomeInverse(xs[..n], ys[..n], f);
      assert ys[..n] + [ys[n]] == ys;
    }
  }

  // ---------------------------------------------------------------------
  // parse_arrival_input
  // ---------------------------------------------------------------------

  /** One comma field of a vector: nothing if blank, else its integer; None where int raises. */
  function FieldValue(x: string): Option<seq<int>> {
    var y := Strip(x);
    if y == [] then Some([])
    else
      match ParseInt(y)
      case None => None
      case Some(v) => Some([v])
  }

  /** `[int(x.strip()) for x in vraw.split(",") if x.strip() != ""]`: None as
      soon as one non-blank field is not an integer. */
  function ParseVector(vraw: string): Option<seq<int>> {
    GatherSome(Split(vraw, ','), FieldValue)
  }

  /** What one `|`-piece contributes to vecs: nothing if it is blank or has a
      bad field, otherwise its vector. */
  function PieceVectors(piece: string): seq<seq<int>> {
    var vraw := Strip(piece);
    if vraw == [] then []
    else
      match ParseVector(vraw)
      case None => []
      case Some(vec) => [vec]
  }

  /** The vecs the piece loop builds. */
  function ParsePieces(pieces: seq<string>): seq<seq<int>> {
    Gather(pieces, PieceVectors)
  }

  /** One stored entry: key and vectors. */
  datatype Entry = Entry(key: int, vecs: seq<seq<int>>)

  /** One `;`-part: skipped without a ':' or with a key that is not an
      integer, and stored only if some vector survived. */
  function ParseEntry(p: string): Option<Entry> {
    if ':' !in p then None
    else
      var h := SplitOnce(p, ':');
      match ParseInt(Strip(h.before))
      case None => None
      case Some(t) =>
        var vecs := ParsePieces(Split(h.after, '|'));
        if vecs == [] then None else Some(Entry(t, vecs))
  }

  function NonBlankPart(p: string): seq<string> {
    var q := Strip(p);
    if q == [] then [] else [q]
  }

  /** `[p.strip() for p in parts if p.strip()]`. */
  function StrippedParts(parts: seq<string>): seq<string> {
    Gather(parts, NonBlankPart)
  }

  function EntryOf(p: string): seq<Entry> {
    match ParseEntry(p)
    case None => []
    case Some(e) => [e]
  }

  /** The entries that are stored, in text order. */
  function Entries(parts: seq<string>): seq<Entry> {
    Gather(parts, EntryOf)
  }

  /** Storing the entries in order: `out[t] = vecs`. */
  function Store(entries: seq<Entry>): map<int, seq<seq<int>>>
    decreases |entries|
  {
    if entries == [] then map[]
    else
      var e := entries[|entries| - 1];
      Store(entries[..|entries| - 1])[e.key := e.vecs]
  }

  /** What parse_arrival_input returns: empty for blank text, and every
      stored key holds at least one vector. */
  function ParseSpec(text: string): (r: map<int, seq<seq<int>>>)
    ensures (forall k :: 0 <= k < |text| ==> IsSpace(text[k])) ==> r == map[]
    ensures forall t :: t in r ==> r[t] != []
  {
    if Strip(text) == [] then map[]
    else
      var parts := StrippedParts(Split(text, ';'));
      EntriesNonEmpty(parts);
      StoreNonEmpty(Entries(parts));
      Store(Entries(parts))
  }

  method ParseArrivalInput(text: string) returns (out: map<int, seq<seq<int>>>)
    ensures out == ParseSpec(text)
  {
    if |text| == 0 || Strip(text) == [] {
      return map[];
    }
    out := StoreParts(StrippedParts(Split(text, ';')));
  }

  /** The loop over the non-blank parts. */
  method StoreParts(parts: seq<string>) returns (out: map<int, seq<seq<int>>>)
    ensures out == Store(Entries(parts))
  {
    out := map[];
    for idx := 0 to |parts|
      invariant out == Store(Entries(parts[..idx]))
    {
      var e := ReadEntry(parts[idx]);
      GatherStep(parts, idx, EntryOf);
      ghost var prior := Entries(parts[..idx]);
      if e.Some? {
        assert (prior + [e.value])[..|prior|] == prior;
        out := out[e.value.key := e.value.vecs];
      } else {
        assert prior + [] == prior;
      }
    }
    assert parts[..|parts|] == parts;
  }

  /** The body of the loop over parts, for one part p. */
  method ReadEntry(p: string) returns (e: Option<Entry>)
    ensures e == ParseEntry(p)
  {
    if ':' !in p {
      return None;
    }
    var h := SplitOnce(p, ':');
    var t := ParseInt(Strip(h.before));
    if t.None? {
      return None;
    }
    var vecs := CollectVectors(Split(h.after, '|'));
    if vecs == [] {
      return None;
    }
    return Some(Entry(t.value, vecs));
  }

  /** The loop over the `|`-pieces of one part. */
  method CollectVectors(pieces: seq<string>) returns (vecs: seq<seq<int>>)
    ensures vecs == ParsePieces(pieces)
  {
    vecs := [];
    for q := 0 to |pieces|
      invariant vecs == ParsePieces(pieces[..q])
    {
      GatherStep(pieces, q, PieceVectors);
      var vraw := Strip(pieces[q]);
      if vraw != [] {
        var vec := ParseVector(vraw);
        if vec.Some? {
          vecs := vecs + [vec.value];
        }
      }
    }
    assert pieces[..|pieces|] == pieces;
  }

  // ---------------------------------------------------------------------
  // Properties of the parser
  // ---------------------------------------------------------------------

  /** Every stored entry carries at least one vector. */
  lemma {:induction false} EntriesNonEmpty(parts: seq<string>)
    ensures forall k :: 0 <= k < |Entries(parts)| ==> Entries(parts)[k].vecs != []
    decreases |parts|
  {
    if parts != [] {
      var n := |parts| - 1;
      EntriesNonEmpty(parts[..n]);
      assert Entries(parts) == Entries(parts[..n]) + EntryOf(parts[n]);
    }
  }

  lemma {:induction false} StoreNonEmpty(entries: seq<Entry>)
    requires forall k :: 0 <= k < |entries| ==> entries[k].vecs != []
    ensures forall t :: t in Store(entries) ==> Store(entries)[t] != []
    decreases |entries|
  {
    if entries != [] {
      StoreNonEmpty(entries[..|entries| - 1]);
    }
  }

  /** `out[t] = vecs` in order: a key is stored exactly when some entry has it,
      and it holds the vectors of the last entry with that key. */
  lemma {:induction false} StoreLastWins(entries: seq<Entry>, t: int)
    ensures t in Store(entries) <==> exists i :: 0 <= i < |entries| && entries[i].key == t
    ensures forall i ::
      (0 <= i < |entries| && entries[i].key == t && forall j :: i < j < |entries| ==> entries[j].key != t)
      ==> Store(entries)[t] == entries[i].vecs
    decreases |entries|
  {
    if entries != [] {
      var n := |entries| - 1;
      var prev := entries[..n];
      StoreLastWins(prev, t);
      if entries[n].key != t {
        assert forall i :: 0 <= i < n ==> prev[i] == entries[i];
      }
    }
  }

  /** A part that yields no entry (no ':', a bad key, or no vector) leaves the
      result as if it were not there. */
  lemma SkippedPart(a: seq<string>, p: string, b: seq<string>)
    requires ParseEntry(p).None?
    ensures Store(Entries(a + [p] + b)) == Store(Entries(a + b))
  {
    GatherDrop(a, p, b, EntryOf);
    GatherAppend(a, b, EntryOf);
  }

  /** A blank piece, or one with a bad field, is dropped and the pieces around it are kept. */
  lemma DroppedPiece(a: seq<string>, x: string, b: seq<string>)
    requires Strip(x) == [] || ParseVector(Strip(x)).None?
    ensures ParsePieces(a + [x] + b) == ParsePieces(a) + ParsePieces(b)
  {
    GatherDrop(a, x, b, PieceVectors);
  }

  /** A piece parses exactly when each of its non-blank fields is an integer literal. */
  lemma FieldsParse(vraw: string)
    ensures ParseVector(vraw).Some? <==>
      var fields := Split(vraw, ',');
      forall k :: 0 <= k < |fields| ==> Strip(fields[k]) == [] || IsIntLiteral(Strip(fields[k]))
  {
    GatherSomeDefined(Split(vraw, ','), FieldValue);
  }

  // ---------------------------------------------------------------------
  // Writing a schedule in the accepted format, and reading it back
  // ---------------------------------------------------------------------

  /** `str(n)` for each entry of v. */
  function IntStrings(v: seq<int>): seq<string> {
    seq(|v|, i requires 0 <= i < |v| => IntToString(v[i]))
  }

  /** A vector written as `v,v,v`. */
  function FormatVector(v: seq<int>): string {
    Join(IntStrings(v), ',')
  }

  function VectorStrings(vecs: seq<seq<int>>): seq<string> {
    seq(|vecs|, i requires 0 <= i < |vecs| => FormatVector(vecs[i]))
  }

  /** An entry written as `t:v,v|v,v`. */
  function FormatEntry(e: Entry): string {
    IntToString(e.key) + ":" + Join(VectorStrings(e.vecs), '|')
  }

  function EntryStrings(es: seq<Entry>): seq<string> {
    seq(|es|, i requires 0 <= i < |es| => FormatEntry(es[i]))
  }

  /** A schedule written as `t:...;t:...`. */
  function FormatSpec(es: seq<Entry>): string {
    Join(EntryStrings(es), ';')
  }

  /** Entries the format can express: each has a vector, and no vector is empty. */
  predicate Writable(es: seq<Entry>) {
    forall k :: 0 <= k < |es| ==> WritableVectors(es[k].vecs)
  }

  predicate WritableVectors(vecs: seq<seq<int>>) {
    vecs != [] && forall j :: 0 <= j < |vecs| ==> vecs[j] != []
  }

  /** Text with no whitespace at either end. */
  predicate Tight(s: string) {
    s != [] && !IsSpace(s[0]) && !IsSpace(s[|s| - 1])
  }

  /** `str(n)` is tight and holds none of the format's separators. */
  lemma IntStringShape(n: int)
    ensures Tight(IntToString(n))
    ensures ',' !in IntToString(n) && '|' !in IntToString(n) && ';' !in IntToString(n) && ':' !in IntToString(n)
  {
    var d := NatToString(if n < 0 then -n else n);
    assert forall k :: 0 <= k < |d| ==> IsDigit(d[k]);
    if n < 0 {
      assert IntToString(n) == "-" + d;
      assert forall k :: 1 <= k < |IntToString(n)| ==> IntToString(n)[k] == d[k - 1];
    }
  }

  /** Joining tight pieces with a non-space separator gives tight text. */
  lemma {:induction false} JoinTight(ps: seq<string>, sep: char)
    requires |ps| >= 1 && !IsSpace(sep) && forall k :: 0 <= k < |ps| ==> Tight(ps[k])
    ensures Tight(Join(ps, sep))
    decreases |ps|
  {
    if |ps| > 1 {
      JoinTight(ps[1..], sep);
      assert Tight(ps[0]);
    }
  }

  /** Joining pieces free of c with a separator other than c gives text free of c. */
  lemma {:induction false} JoinAvoids(ps: seq<string>, sep: char, c: char)
    requires c != sep && forall k :: 0 <= k < |ps| ==> c !in ps[k]
    ensures c !in Join(ps, sep)
    decreases |ps|
  {
    if |ps| > 1 {
      JoinAvoids(ps[1..], sep, c);
      assert c !in ps[0];
    }
  }

  /** A written non-empty vector is tight and holds no `|`, `;` or `:`. */
  lemma VectorShape(v: seq<int>)
    requires v != []
    ensures Tight(FormatVector(v))
    ensures '|' !in FormatVector(v) && ';' !in FormatVector(v) && ':' !in FormatVector(v)
  {
    var ps := IntStrings(v);
    forall k | 0 <= k < |ps|
      ensures Tight(ps[k]) && ',' !in ps[k] && '|' !in ps[k] && ';' !in ps[k] && ':' !in ps[k]
    {
      IntStringShape(v[k]);
    }
    JoinTight(ps, ',');
    JoinAvoids(ps, ',', '|');
    JoinAvoids(ps, ',', ';');
    JoinAvoids(ps, ',', ':');
  }

  /** Reading the fields of a written vector gives the vector back. */
  lemma FieldsOfInts(v: seq<int>)
    ensures GatherSome(IntStrings(v), FieldValue) == Some(v)
  {
    forall k | 0 <= k < |v|
      ensures FieldValue(IntStrings(v)[k]) == Some([v[k]])
    {
      IntStringShape(v[k]);
      StripTight(IntToString(v[k]));
      ParseIntToString(v[k]);
    }
    GatherSomeInverse(IntStrings(v), v, FieldValue);
  }

  /** Round trip for one vector: `v,v,v` reads back as v. */
  lemma VectorRoundTrip(v: seq<int>)
    requires v != []
    ensures PieceVectors(FormatVector(v)) == [v]
  {
    var ps := IntStrings(v);
    forall k | 0 <= k < |ps|
      ensures ',' !in ps[k]
    {
      IntStringShape(v[k]);
    }
    SplitJoin(ps, ',');
    FieldsOfInts(v);
    VectorShape(v);
    StripTight(FormatVector(v));
  }

  /** Reading the pieces of written vectors gives the vectors back. */
  lemma PiecesOfVectors(vecs: seq<seq<int>>)
    requires forall j :: 0 <= j < |vecs| ==> vecs[j] != []
    ensures ParsePieces(VectorStrings(vecs)) == vecs
  {
    forall k | 0 <= k < |vecs|
      ensures PieceVectors(VectorStrings(vecs)[k]) == [vecs[k]]
    {
      VectorRoundTrip(vecs[k]);
    }
    GatherInverse(VectorStrings(vecs), vecs, PieceVectors);
  }

  /** Splitting once at a c that is not in a. */
  lemma SplitOnceAt(a: string, b: string, c: char)
    requires c !in a
    ensures SplitOnce(a + [c] + b, c) == Halves(a, b)
  {
    var s := a + [c] + b;
    var h := SplitOnce(s, c);
    assert forall i :: 0 <= i < |a| ==> s[i] == a[i];
    assert s[|h.before|] == c && s[|a|] == c;
    assert |h.before| == |a|;
    assert h.before == s[..|a|] == a;
    assert h.after == s[|a| + 1..] == b;
  }

  /** A written entry is tight and holds no `;`. */
  lemma EntryShape(e: Entry)
    requires WritableVectors(e.vecs)
    ensures Tight(FormatEntry(e)) && ';' !in FormatEntry(e)
  {
    var ps := VectorStrings(e.vecs);
    forall k | 0 <= k < |ps|
      ensures Tight(ps[k]) && ';' !in ps[k]
    {
      VectorShape(e.vecs[k]);
    }
    JoinTight(ps, '|');
    JoinAvoids(ps, '|', ';');
    IntStringShape(e.key);
    var s := FormatEntry(e);
    var j := Join(ps, '|');
    assert s[0] == IntToString(e.key)[0];
    assert s[|s| - 1] == j[|j| - 1];
  }

  /** Round trip for one entry: `t:v,v|v,v` reads back as the entry. */
  lemma EntryRoundTrip(e: Entry)
    requires WritableVectors(e.vecs)
    ensures ParseEntry(FormatEntry(e)) == Some(e)
  {
    var key := IntToString(e.key);
    var ps := VectorStrings(e.vecs);
    IntStringShape(e.key);
    SplitOnceAt(key, Join(ps, '|'), ':');
    assert FormatEntry(e) == key + [':'] + Join(ps, '|');
    StripTight(key);
    ParseIntToString(e.key);
    forall k | 0 <= k < |ps|
      ensures '|' !in ps[k]
    {
      VectorShape(e.vecs[k]);
    }
    SplitJoin(ps, '|');
    PiecesOfVectors(e.vecs);
  }

  /** Reading the parts of written entries gives the entries back. */
  lemma PartsOfEntries(es: seq<Entry>)
    requires Writable(es)
    ensures StrippedParts(EntryStrings(es)) == EntryStrings(es)
    ensures Entries(EntryStrings(es)) == es
  {
    var ps := EntryStrings(es);
    forall k | 0 <= k < |es|
      ensures NonBlankPart(ps[k]) == [ps[k]] && EntryOf(ps[k]) == [es[k]]
    {
      assert WritableVectors(es[k].vecs);
      EntryShape(es[k]);
      StripTight(FormatEntry(es[k]));
      EntryRoundTrip(es[k]);
    }
    GatherInverse(ps, ps, NonBlankPart);
    GatherInverse(ps, es, EntryOf);
  }

  /** Round trip for a schedule: reading it back stores the entries in order,
      so a key that appears twice keeps its last vectors. */
  lemma SpecRoundTrip(es: seq<Entry>)
    requires Writable(es)
    ensures ParseSpec(FormatSpec(es)) == Store(es)
  {
    if es != [] {
      var ps := EntryStrings(es);
      forall k | 0 <= k < |ps|
        ensures Tight(ps[k]) && ';' !in ps[k]
      {
        assert WritableVectors(es[k].vecs);
        EntryShape(es[k]);
      }
      SplitJoin(ps, ';');
      JoinTight(ps, ';');
      PartsOfEntries(es);
    }
  }

  /** The format's own example, and what it stands for. */
  const SampleText: string := "0:4,3,3;2:2,1,1"
  const SampleEntries: seq<Entry> := [Entry(0, [[4, 3, 3]]), Entry(2, [[2, 1, 1]])]

  /** Small numbers are written as one digit. */
  lemma DigitStrings()
    ensures IntToString(0) == "0" && IntToString(1) == "1" && IntToString(2) == "2"
    ensures IntToString(3) == "3" && IntToString(4) == "4"
  {
  }

  lemma SampleFirstEntry()
    ensures FormatEntry(SampleEntries[0]) == "0:4,3,3"
  {
    DigitStrings();
    assert IntStrings([4, 3, 3]) == ["4", "3", "3"];
    assert FormatVector([4, 3, 3]) == "4,3,3";
    assert VectorStrings([[4, 3, 3]]) == ["4,3,3"];
  }

  lemma SampleSecondEntry()
    ensures FormatEntry(SampleEntries[1]) == "2:2,1,1"
  {
    DigitStrings();
    assert IntStrings([2, 1, 1]) == ["2", "1", "1"];
    assert FormatVector([2, 1, 1]) == "2,1,1";
    assert VectorStrings([[2, 1, 1]]) == ["2,1,1"];
  }

  /** The sample text is the written form of its entries. */
  lemma SampleWritten()
    ensures Writable(SampleEntries) && FormatSpec(SampleEntries) == SampleText
  {
    SampleFirstEntry();
    SampleSecondEntry();
    assert EntryStrings(SampleEntries) == ["0:4,3,3", "2:2,1,1"];
  }

  /** "0:4,3,3;2:2,1,1" is {0: [[4,3,3]], 2: [[2,1,1]]}. */
  lemma SampleArrivalText()
    ensures ParseSpec(SampleText) == map[0 := [[4, 3, 3]], 2 := [[2, 1, 1]]]
  {
    SampleWritten();
    SpecRoundTrip(SampleEntries);
    assert Store(SampleEntries) == map[0 := [[4, 3, 3]], 2 := [[2, 1, 1]]] by {
      assert SampleEntries[..1] == [Entry(0, [[4, 3, 3]])];
    }
  }
}
