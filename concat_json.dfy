/**
 * The price blobs of a map feature: several JSON objects written back to back
 * (`{"1 B/R":{...}}{"2 B/R":{...}}`). The click handler marks every `}{` with a
 * bar, splits on bars, parses each fragment and merges the fragments' top-level
 * keys, the last fragment winning. One fragment that fails makes the whole
 * field `{}`.
 *
 * `JSON.parse` is the parameter `parse`: `None` is a parse that throws.
 */
module ConcatJson {
  import opened Wrappers
  import opened Js

  type Parser = string -> Option<Value>

  // ---------------------------------------------------------------------------
  // Marking and splitting

  /** `s.replace(/}{/g, '}|{')`: matches are found left to right and do not overlap. */
  function MarkBoundaries(s: string): (r: string)
    ensures |r| == |s| + BoundaryCount(s)
  {
    if |s| >= 2 && s[0] == '}' && s[1] == '{' then "}|{" + MarkBoundaries(s[2..])
    else if s == [] then []
    else [s[0]] + MarkBoundaries(s[1..])
  }

  function IndexOf(t: string, c: char): (r: Option<nat>)
    ensures r.Some? ==> r.value < |t| && t[r.value] == c && c !in t[..r.value]
    ensures r.None? ==> c !in t
  {
    if t == [] then None
    else if t[0] == c then Some(0)
    else match IndexOf(t[1..], c)
      case None => None
      case Some(i) => assert t[..i + 1] == [t[0]] + t[1..][..i]; Some(i + 1)
  }

  /** `t.split(c)`: always at least one part; an empty string gives `[""]`. */
  function SplitOn(t: string, c: char): (parts: seq<string>)
    ensures |parts| >= 1
    ensures forall i :: 0 <= i < |parts| ==> c !in parts[i]
    decreases |t|
  {
    match IndexOf(t, c)
    case None => [t]
    case Some(p) => [t[..p]] + SplitOn(t[p + 1..], c)
  }

  /** The fragments the click handler parses one by one. */
  function Fragments(s: string): (fs: seq<string>)
    ensures |fs| >= 1
    ensures forall i :: 0 <= i < |fs| ==> '|' !in fs[i]
  {
    SplitOn(MarkBoundaries(s), '|')
  }

  // ---------------------------------------------------------------------------
  // A direct description of the fragments of a blob without bars

  /** The position of the first `}` that is directly followed by `{`. */
  function FirstBoundary(s: string): (r: Option<nat>)
    ensures r.Some? ==> r.value + 1 < |s| && s[r.value] == '}' && s[r.value + 1] == '{'
  {
    if |s| < 2 then None
    else if s[0] == '}' && s[1] == '{' then Some(0)
    else match FirstBoundary(s[1..])
      case None => None
      case Some(i) => Some(i + 1)
  }

  /** The number of places where `}` is directly followed by `{`. */
  function BoundaryCount(s: string): nat {
    if |s| < 2 then 0
    else (if s[0] == '}' && s[1] == '{' then 1 else 0) + BoundaryCount(s[1..])
  }

  /** The blob cut after every `}` that directly precedes a `{`. */
  function Pieces(s: string): seq<string>
    decreases |s|
  {
    match FirstBoundary(s)
    case None => [s]
    case Some(q) => [s[..q + 1]] + Pieces(s[q + 1..])
  }

  function Concat(parts: seq<string>): string {
    if parts == [] then "" else parts[0] + Concat(parts[1..])
  }

  lemma {:induction false} MarkWithoutBoundary(s: string)
    requires FirstBoundary(s).None?
    ensures MarkBoundaries(s) == s
  {
    if s != [] {
      if |s| >= 2 {
        assert !(s[0] == '}' && s[1] == '{');
        assert FirstBoundary(s[1..]).None?;
      }
      MarkWithoutBoundary(s[1..]);
    }
  }

  /** Up to its first boundary the blob is copied unchanged, then the bar follows. */
  lemma {:induction false} MarkAtFirstBoundary(s: string, q: nat)
    requires FirstBoundary(s) == Some(q)
    ensures MarkBoundaries(s) == s[..q + 1] + "|" + MarkBoundaries(s[q + 1..])
  {
    if s[0] == '}' && s[1] == '{' {
      assert q == 0;
      MarkAtHead(s);
    } else {
      var t := s[1..];
      MarkAtFirstBoundary(t, q - 1);
      assert t[q..] == s[q + 1..];
      MarkPastHead(s, q);
    }
  }

  lemma MarkAtHead(s: string)
    requires |s| >= 2 && s[0] == '}' && s[1] == '{'
    ensures MarkBoundaries(s) == s[..1] + "|" + MarkBoundaries(s[1..])
  {
    var rest := MarkBoundaries(s[2..]);
    assert s[1..][1..] == s[2..];
    MarkCons(s[1..]);
    assert s[..1] == "}";
    BracesAround(rest);
  }

  lemma MarkPastHead(s: string, q: nat)
    requires 1 <= q < |s| && !(s[0] == '}' && s[1] == '{')
    requires MarkBoundaries(s[1..]) == s[1..][..q] + "|" + MarkBoundaries(s[q + 1..])
    ensures MarkBoundaries(s) == s[..q + 1] + "|" + MarkBoundaries(s[q + 1..])
  {
    MarkCons(s);
    HeadAndSlice(s, q);
    MarkAfter(s[0], s[1..][..q], MarkBoundaries(s[q + 1..]));
  }

  /** A character that does not open a boundary is copied as it is. */
  lemma MarkCons(s: string)
    requires s != [] && !(|s| >= 2 && s[0] == '}' && s[1] == '{')
    ensures MarkBoundaries(s) == [s[0]] + MarkBoundaries(s[1..])
  {
  }

  lemma HeadAndSlice(s: string, q: nat)
    requires 1 <= q < |s|
    ensures s[..q + 1] == [s[0]] + s[1..][..q]
  {
  }

  lemma MarkAfter(c: char, a: string, rest: string)
    ensures [c] + (a + "|" + rest) == ([c] + a) + "|" + rest
  {
  }

  lemma BracesAround(rest: string)
    ensures "}" + "|" + ("{" + rest) == "}|{" + rest
  {
  }




  /** For a blob without bars, the fragments the handler parses are exactly the
      pieces cut after every `}` that precedes a `{`. */
  lemma {:induction false} FragmentsArePieces(s: string)
    requires '|' !in s
    ensures Fragments(s) == Pieces(s)
    decreases |s|
  {
    match FirstBoundary(s)
    case None =>
      MarkWithoutBoundary(s);
    case Some(q) =>
      MarkAtFirstBoundary(s, q);
      var rest := MarkBoundaries(s[q + 1..]);
      var t := s[..q + 1] + "|" + rest;
      assert '|' !in s[..q + 1];
      assert t[..q + 1] == s[..q + 1];
      assert IndexOf(t, '|') == Some(q + 1) by {
        assert t[q + 1] == '|';
        assert t[..q + 1] == s[..q + 1];
        IndexOfFirst(t, '|', q + 1);
      }
      assert t[q + 2..] == rest;
      assert '|' !in s[q + 1..];
      FragmentsArePieces(s[q + 1..]);
  }

  lemma IndexOfFirst(t: string, c: char, p: nat)
    requires p < |t| && t[p] == c && c !in t[..p]
    ensures IndexOf(t, c) == Some(p)
  {
    assert t[..p + 1][p] == c;
  }

  /** Without bars in the blob, the fragments concatenate back to the blob. */
  lemma {:induction false} FragmentsConcatenate(s: string)
    requires '|' !in s
    ensures Concat(Fragments(s)) == s
  {
    FragmentsArePieces(s);
    PiecesConcatenate(s);
  }

  lemma {:induction false} PiecesConcatenate(s: string)
    ensures Concat(Pieces(s)) == s
    decreases |s|
  {
    match FirstBoundary(s)
    case None =>
    case Some(q) =>
      PiecesConcatenate(s[q + 1..]);
      assert s == s[..q + 1] + s[q + 1..];
  }

  lemma {:induction false} BoundaryCountAtFirst(s: string)
    ensures FirstBoundary(s).None? ==> BoundaryCount(s) == 0
    ensures FirstBoundary(s).Some? ==>
      BoundaryCount(s) == 1 + BoundaryCount(s[FirstBoundary(s).value + 1..])
  {
    if |s| >= 2 && !(s[0] == '}' && s[1] == '{') {
      BoundaryCountAtFirst(s[1..]);
      if FirstBoundary(s).Some? {
        var q := FirstBoundary(s).value;
        assert s[1..][q..] == s[q + 1..];
      }
    }
  }

  /** Without bars in the blob there is one fragment more than there are `}{` places. */
  lemma {:induction false} FragmentCount(s: string)
    requires '|' !in s
    ensures |Fragments(s)| == BoundaryCount(s) + 1
  {
    FragmentsArePieces(s);
    PieceCount(s);
  }

  lemma {:induction false} PieceCount(s: string)
    ensures |Pieces(s)| == BoundaryCount(s) + 1
    decreases |s|
  {
    BoundaryCountAtFirst(s);
    match FirstBoundary(s)
    case None =>
    case Some(q) => PieceCount(s[q + 1..]);
  }

  /** Without bars in the blob, every fragment but the last ends with `}` and
      every fragment but the first starts with `{`. */
  lemma {:induction false} FragmentShape(s: string)
    requires '|' !in s
    ensures var fs := Fragments(s);
      && (forall i :: 0 <= i < |fs| - 1 ==> |fs[i]| > 0 && fs[i][|fs[i]| - 1] == '}')
      && (forall i :: 0 < i < |fs| ==> |fs[i]| > 0 && fs[i][0] == '{')
  {
    FragmentsArePieces(s);
    PieceShape(s);
  }

  lemma PieceShape(s: string)
    ensures var ps := Pieces(s);
      && (forall i :: 0 <= i < |ps| - 1 ==> |ps[i]| > 0 && ps[i][|ps[i]| - 1] == '}')
      && (|ps| > 1 ==> forall i :: 0 < i < |ps| ==> |ps[i]| > 0 && ps[i][0] == '{')
  {
    PiecesEndWithBrace(s);
    PiecesStartWithBrace(s);
  }

  lemma {:induction false} PiecesEndWithBrace(s: string)
    ensures var ps := Pieces(s);
      forall i :: 0 <= i < |ps| - 1 ==> |ps[i]| > 0 && ps[i][|ps[i]| - 1] == '}'
    decreases |s|
  {
    match FirstBoundary(s)
    case None =>
    case Some(q) =>
      PiecesEndWithBrace(s[q + 1..]);
      assert Pieces(s) == [s[..q + 1]] + Pieces(s[q + 1..]);
  }

  lemma {:induction false} PiecesStartWithBrace(s: string)
    ensures var ps := Pieces(s);
      |ps| > 1 ==> forall i :: 0 < i < |ps| ==> |ps[i]| > 0 && ps[i][0] == '{'
    decreases |s|
  {
    match FirstBoundary(s)
    case None =>
    case Some(q) =>
      var rest := s[q + 1..];
      PiecesStartWithBrace(rest);
      assert Pieces(s) == [s[..q + 1]] + Pieces(rest);
      assert rest[0] == '{';
      FirstPieceStart(rest);
  }

  /** The first piece starts where the string does. */
  lemma FirstPieceStart(s: string)
    requires s != []
    ensures |Pieces(s)[0]| > 0 && Pieces(s)[0][0] == s[0]
  {
  }


  // ---------------------------------------------------------------------------
  // Parsing and merging

  /** The top-level key/value pairs of one fragment, in `Object.keys` order;
      `None` when `JSON.parse` throws or yields null (then `Object.keys` throws). */
  function FragmentEntries(part: string, parse: Parser): Option<Entries> {
    match parse(part)
    case None => None
    case Some(v) => OwnEntries(v)
  }

  /** `roomDict[room] = obj[room]` for every key of one fragment, in order. */
  function WriteAll(acc: Entries, es: Entries): Entries
    decreases |es|
  {
    if es == [] then acc else WriteAll(Put(acc, es[0].0, es[0].1), es[1..])
  }

  /** The merge of the remaining fragments into `acc`; `None` as soon as one fails. */
  function MergeFrom(acc: Entries, parts: seq<string>, parse: Parser): Option<Entries>
    decreases |parts|
  {
    if parts == [] then Some(acc)
    else match FragmentEntries(parts[0], parse)
      case None => None
      case Some(es) => MergeFrom(WriteAll(acc, es), parts[1..], parse)
  }

  /** The object the handler builds from a list of fragments, or `None` when
      the `try` block throws. */
  function MergeFragments(parts: seq<string>, parse: Parser): (r: Option<JsObject>)
    ensures r.Some? ==> WellFormed(r.value)
    ensures r.None? <==> exists i :: 0 <= i < |parts| && FragmentEntries(parts[i], parse).None?
  {
    MergeFromOrdered([], parts, parse);
    MergeFailsIffSomeFragmentFails([], parts, parse);
    match MergeFrom([], parts, parse)
    case None => None
    case Some(es) => Some(JsObject(es))
  }

  /** `parts.forEach(...)` with its `try`: the loop the click handler runs. */
  method MergeParts(parts: seq<string>, parse: Parser) returns (r: Option<JsObject>)
    ensures r == MergeFragments(parts, parse)
  {
    var roomDict := Empty;
    var i := 0;
    while i < |parts|
      invariant 0 <= i <= |parts|
      invariant MergeFrom([], parts, parse) == MergeFrom(roomDict.entries, parts[i..], parse)
    {
      assert parts[i..][1..] == parts[i + 1..];
      var obj := parse(parts[i]);
      if obj.None? {
        return None;
      }
      var keys := OwnEntries(obj.value);
      if keys.None? {
        return None;
      }
      var es := keys.value;
      var j := 0;
      ghost var start := roomDict.entries;
      while j < |es|
        invariant 0 <= j <= |es|
        invariant WriteAll(start, es) == WriteAll(roomDict.entries, es[j..])
      {
        assert es[j..][1..] == es[j + 1..];
        roomDict := Set(roomDict, es[j].0, es[j].1);
        j := j + 1;
      }
      i := i + 1;
    }
    return Some(roomDict);
  }

  /** A price field as the click handler leaves it: a non-empty string is
      replaced by the merged object, or by `{}` when any fragment fails;
      anything else (an object, `""`, a missing field) stays as it is. */
  function NormalizePriceField(v: Value, parse: Parser): (r: Value)
    ensures !(v.Str? && v.s != "") ==> r == v
    ensures v.Str? && v.s != "" ==> r.Obj? && WellFormed(r.obj)
    ensures v.Str? && v.s != "" && MergeFragments(Fragments(v.s), parse).None? ==> r == Obj(Empty)
    ensures v.Str? && v.s != "" && MergeFragments(Fragments(v.s), parse).Some? ==>
      r == Obj(MergeFragments(Fragments(v.s), parse).value)
  {
    if Truthy(v) && v.Str? then
      var m := MergeFragments(Fragments(v.s), parse);
      MergeOrdered(Fragments(v.s), parse);
      Obj(m.GetOr(Empty))
    else v
  }

  // ---------------------------------------------------------------------------
  // What the merge computes

  lemma {:induction false} WriteAllOrdered(acc: Entries, es: Entries)
    requires Ordered(acc)
    ensures Ordered(WriteAll(acc, es))
    decreases |es|
  {
    if es != [] {
      PutOrdered(acc, es[0].0, es[0].1);
      WriteAllOrdered(Put(acc, es[0].0, es[0].1), es[1..]);
    }
  }

  lemma {:induction false} MergeFromOrdered(acc: Entries, parts: seq<string>, parse: Parser)
    requires Ordered(acc)
    ensures MergeFrom(acc, parts, parse).Some? ==> Ordered(MergeFrom(acc, parts, parse).value)
    decreases |parts|
  {
    if parts != [] {
      match FragmentEntries(parts[0], parse)
      case None =>
      case Some(es) =>
        WriteAllOrdered(acc, es);
        MergeFromOrdered(WriteAll(acc, es), parts[1..], parse);
    }
  }

  /** The merged object has distinct keys in `Object.keys` order. */
  lemma MergeOrdered(parts: seq<string>, parse: Parser)
    ensures MergeFragments(parts, parse).Some? ==> WellFormed(MergeFragments(parts, parse).value)
  {
    MergeFromOrdered([], parts, parse);
  }

  /** The merge fails exactly when some fragment fails: there is no partial merge. */
  lemma {:induction false} MergeFailsIffSomeFragmentFails(acc: Entries, parts: seq<string>, parse: Parser)
    ensures MergeFrom(acc, parts, parse).None? <==>
      exists i :: 0 <= i < |parts| && FragmentEntries(parts[i], parse).None?
    decreases |parts|
  {
    if parts != [] {
      match FragmentEntries(parts[0], parse)
      case None =>
      case Some(es) =>
        MergeFailsIffSomeFragmentFails(WriteAll(acc, es), parts[1..], parse);
        if exists i :: 0 <= i < |parts| && FragmentEntries(parts[i], parse).None? {
          var i :| 0 <= i < |parts| && FragmentEntries(parts[i], parse).None?;
          assert parts[1..][i - 1] == parts[i];
        }
    }
  }

  /** The value of the last pair with key `k`, if any. */
  function LastValue(es: Entries, k: string): Option<Value> {
    if es == [] then None
    else if es[|es| - 1].0 == k then Some(es[|es| - 1].1)
    else LastValue(es[..|es| - 1], k)
  }

  /** The value `k` has in the last fragment that contains it, if any. */
  function LastFragmentValue(frags: seq<Entries>, k: string): Option<Value> {
    if frags == [] then None
    else match LastValue(frags[|frags| - 1], k)
      case Some(v) => Some(v)
      case None => LastFragmentValue(frags[..|frags| - 1], k)
  }

  /** The parsed top-level pairs of every fragment, when all of them parse. */
  function AllFragmentEntries(parts: seq<string>, parse: Parser): Option<seq<Entries>> {
    if parts == [] then Some([])
    else match FragmentEntries(parts[|parts| - 1], parse)
      case None => None
      case Some(es) =>
        match AllFragmentEntries(parts[..|parts| - 1], parse)
        case None => None
        case Some(front) => Some(front + [es])
  }

  lemma {:induction false} LookupWriteAll(acc: Entries, es: Entries, k: string)
    ensures Lookup(WriteAll(acc, es), k) == LastValue(es, k).GetOr(Lookup(acc, k))
    decreases |es|
  {
    if es != [] {
      var acc' := Put(acc, es[0].0, es[0].1);
      LookupWriteAll(acc', es[1..], k);
      LookupPut(acc, es[0].0, es[0].1, k);
      LastValueSplit(es, k);
    }
  }

  /** The last pair of `es` with key `k` lies in its tail unless only the head has it. */
  lemma {:induction false} LastValueSplit(es: Entries, k: string)
    requires es != []
    ensures LastValue(es, k) ==
      match LastValue(es[1..], k)
      case Some(v) => Some(v)
      case None => if es[0].0 == k then Some(es[0].1) else None
    decreases |es|
  {
    if |es| > 1 && es[|es| - 1].0 != k {
      LastValueSplit(es[..|es| - 1], k);
      assert es[..|es| - 1][1..] == es[1..][..|es| - 2];
    }
  }

  lemma {:induction false} MergeFromSplitLast(acc: Entries, parts: seq<string>, parse: Parser)
    requires parts != []
    ensures MergeFrom(acc, parts, parse) ==
      match MergeFrom(acc, parts[..|parts| - 1], parse)
      case None => None
      case Some(front) =>
        match FragmentEntries(parts[|parts| - 1], parse)
        case None => None
        case Some(es) => Some(WriteAll(front, es))
    decreases |parts|
  {
    if |parts| > 1 {
      match FragmentEntries(parts[0], parse)
      case None =>
      case Some(es) =>
        MergeFromSplitLast(WriteAll(acc, es), parts[1..], parse);
        assert parts[..|parts| - 1][1..] == parts[1..][..|parts| - 2];
    }
  }

  /** When every fragment parses, each key of the merged object holds the value
      it has in the last fragment that contains it, and a key that no fragment
      contains is absent. */
  lemma {:induction false} MergeLastFragmentWins(parts: seq<string>, parse: Parser, k: string)
    requires AllFragmentEntries(parts, parse).Some?
    ensures MergeFragments(parts, parse).Some?
    ensures Get(MergeFragments(parts, parse).value, k) ==
      LastFragmentValue(AllFragmentEntries(parts, parse).value, k).GetOr(Undefined)
    decreases |parts|
  {
    if parts != [] {
      var front := parts[..|parts| - 1];
      MergeLastFragmentWins(front, parse, k);
      MergeFromSplitLast([], parts, parse);
      var es := FragmentEntries(parts[|parts| - 1], parse).value;
      var acc := MergeFrom([], front, parse).value;
      LookupWriteAll(acc, es, k);
      var frags := AllFragmentEntries(parts, parse).value;
      assert frags[..|frags| - 1] == AllFragmentEntries(front, parse).value;
    }
  }
}
