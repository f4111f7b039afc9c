/** A vector kept in one file: a four-byte length, then one frame per element, each carrying its size
    before and after the payload. Bytes past the length are stale. */
module VectorFile {
  import opened RaftDefs

  newtype byte = x: int | 0 <= x < 256

  const INT_LIMIT := 0x8000_0000

  /** Four bytes, least significant first; the source's native layout and its `int2String` agree on it. */
  function IntBytes(x: nat): (b: seq<byte>)
    ensures |b| == 4
  {
    [(x % 256) as byte, (x / 256 % 256) as byte, (x / 65536 % 256) as byte, (x / 16777216 % 256) as byte]
  }

  /** Reading the four bytes back into a signed 32-bit integer. */
  function BytesInt(b: seq<byte>): int
    requires |b| == 4
  {
    var u := b[0] as int + 256 * (b[1] as int + 256 * (b[2] as int + 256 * (b[3] as int)));
    if u < INT_LIMIT then u else u - 2 * INT_LIMIT
  }

  lemma IntRoundTrip(x: nat)
    requires x < INT_LIMIT
    ensures BytesInt(IntBytes(x)) == x
  {
    var q1 := x / 256;
    var q2 := q1 / 256;
    var q3 := q2 / 256;
    assert x / 65536 == q2 && x / 16777216 == q3;
    assert q3 < 128;
    assert x == x % 256 + 256 * (q1 % 256 + 256 * (q2 % 256 + 256 * (q3 % 256)));
  }

  /** The bytes are those of the binary notation, the least significant one first. */
  lemma IntBytesValue(x: nat)
    requires x < 2 * INT_LIMIT
    ensures var b := IntBytes(x);
            b[0] as int + 256 * b[1] as int + 65536 * b[2] as int + 16777216 * b[3] as int == x
  {
    var q1 := x / 256;
    var q2 := q1 / 256;
    var q3 := q2 / 256;
    assert x / 65536 == q2 && x / 16777216 == q3;
  }

  function Frame(p: seq<byte>): seq<byte> {
    IntBytes(|p|) + p + IntBytes(|p|)
  }

  function Frames(items: seq<seq<byte>>): seq<byte> {
    if items == [] then [] else Frames(items[..|items| - 1]) + Frame(items[|items| - 1])
  }

  /** The file holds `items`: the header counts header and frames, the frames follow, anything may follow
      the frames, and sizes stay below 2^31. */
  ghost predicate Holds(bytes: seq<byte>, items: seq<seq<byte>>) {
    var n := 4 + |Frames(items)|;
    && n < INT_LIMIT && n <= |bytes|
    && bytes[..4] == IntBytes(n)
    && bytes[4..n] == Frames(items)
  }

  /** Writing in place: bytes under the data are replaced, the rest of the file stays. */
  function Overwrite(bytes: seq<byte>, at: nat, data: seq<byte>): seq<byte>
    requires at <= |bytes|
  {
    bytes[..at] + data + if at + |data| <= |bytes| then bytes[at + |data|..] else []
  }

  function Header(bytes: seq<byte>): int
    requires 4 <= |bytes|
  {
    BytesInt(bytes[..4])
  }

  /** A header that points inside the file. */
  predicate Sound(bytes: seq<byte>) {
    4 <= |bytes| && 4 <= Header(bytes) <= |bytes|
  }

  /** The new frame goes to where the header points, over whatever stale bytes are there. */
  function AppendTo(bytes: seq<byte>, p: seq<byte>): seq<byte>
    requires Sound(bytes)
  {
    var len := Header(bytes);
    Overwrite(Overwrite(bytes, len, Frame(p)), 0, IntBytes(len + |Frame(p)|))
  }

  /** The last frame's size is read from its end; only the header changes. Where the frame's first size lies
      outside the file the seek or the read fails, and a failed stream writes nothing. */
  function PopFrom(bytes: seq<byte>): seq<byte>
    requires Sound(bytes)
  {
    var len := Header(bytes);
    var size := BytesInt(bytes[len - 4..len]);
    var begin := len - size - 8;
    if 0 <= begin <= |bytes| - 4 then Overwrite(bytes, 0, IntBytes(begin)) else bytes
  }

  lemma HoldsSound(bytes: seq<byte>, items: seq<seq<byte>>)
    requires Holds(bytes, items)
    ensures Sound(bytes) && Header(bytes) == 4 + |Frames(items)|
  {
    IntRoundTrip(4 + |Frames(items)|);
  }

  lemma HeaderWritten(bytes: seq<byte>, tag: seq<byte>)
    requires 4 <= |bytes| && |tag| == 4
    ensures var r := Overwrite(bytes, 0, tag); |r| == |bytes| && r[..4] == tag && r[4..] == bytes[4..]
  {
  }

  lemma TailWritten(bytes: seq<byte>, at: nat, data: seq<byte>, tag: seq<byte>)
    requires 4 <= at <= |bytes| && |tag| == 4
    ensures var r := Overwrite(Overwrite(bytes, at, data), 0, tag);
            && at + |data| <= |r| && r[..4] == tag && r[4..at + |data|] == bytes[4..at] + data
  {
    var mid := Overwrite(bytes, at, data);
    HeaderWritten(mid, tag);
    assert mid[4..at + |data|] == bytes[4..at] + data;
    Slice(Overwrite(mid, 0, tag), 4, |mid|, 0, at + |data| - 4);
    Slice(mid, 4, |mid|, 0, at + |data| - 4);
  }

  lemma Slice(s: seq<byte>, a: nat, b: nat, c: nat, d: nat)
    requires a <= b <= |s| && c <= d <= b - a
    ensures s[a..b][c..d] == s[a + c..a + d]
  {
    assert forall k | 0 <= k < d - c :: s[a..b][c..d][k] == s[a + c..a + d][k];
  }

  lemma FramesSnoc(items: seq<seq<byte>>, p: seq<byte>)
    ensures Frames(items + [p]) == Frames(items) + Frame(p)
  {
    assert (items + [p])[..|items|] == items;
  }

  lemma TailHolds(bytes: seq<byte>, items: seq<seq<byte>>, p: seq<byte>, n: nat, m: nat)
    requires Holds(bytes, items) && n == 4 + |Frames(items)| && m == n + |Frame(p)| < INT_LIMIT
    ensures Holds(Overwrite(Overwrite(bytes, n, Frame(p)), 0, IntBytes(m)), items + [p])
  {
    TailWritten(bytes, n, Frame(p), IntBytes(m));
    FramesSnoc(items, p);
  }

  lemma AppendHolds(bytes: seq<byte>, items: seq<seq<byte>>, p: seq<byte>)
    requires Holds(bytes, items) && 4 + |Frames(items)| + |Frame(p)| < INT_LIMIT
    ensures Sound(bytes) && Holds(AppendTo(bytes, p), items + [p])
  {
    var n := 4 + |Frames(items)|;
    HoldsSound(bytes, items);
    TailHolds(bytes, items, p, n, n + |Frame(p)|);
  }

  /** An append never shortens the file: what lies behind the new frame stays. */
  lemma AppendKeepsTail(bytes: seq<byte>, p: seq<byte>)
    requires Sound(bytes)
    ensures var end, r := Header(bytes) + |Frame(p)|, AppendTo(bytes, p);
            if |bytes| <= end then |r| == end else |r| == |bytes| && forall k | end <= k < |bytes| :: r[k] == bytes[k]
  {
    var end := Header(bytes) + |Frame(p)|;
    HeaderWritten(Overwrite(bytes, Header(bytes), Frame(p)), IntBytes(end));
  }

  /** The whole of a file with one element: total size, element size, element, element size again. */
  lemma FirstFrame(p: seq<byte>)
    requires 12 + |p| < INT_LIMIT
    ensures Sound(IntBytes(4))
    ensures AppendTo(IntBytes(4), p) == IntBytes(12 + |p|) + IntBytes(|p|) + p + IntBytes(|p|)
  {
    IntRoundTrip(4);
    assert Header(IntBytes(4)) == 4;
  }

  /** The bytes before the end of the last frame are its size. */
  lemma LastFrame(items: seq<seq<byte>>)
    requires items != []
    ensures var fs, p := Frames(items), items[|items| - 1];
            && |Frame(p)| == |p| + 8 && |Frames(items[..|items| - 1])| == |fs| - |Frame(p)|
            && fs[..|fs| - |Frame(p)|] == Frames(items[..|items| - 1])
            && fs[|fs| - 4..] == IntBytes(|p|)
  {
  }

  lemma PopMoves(bytes: seq<byte>, size: nat)
    requires Sound(bytes) && 4 <= Header(bytes) - size - 8
    requires BytesInt(bytes[Header(bytes) - 4..Header(bytes)]) == size
    ensures PopFrom(bytes) == Overwrite(bytes, 0, IntBytes(Header(bytes) - size - 8))
  {
  }

  lemma LastSize(bytes: seq<byte>, items: seq<seq<byte>>)
    requires Holds(bytes, items) && items != []
    ensures var n := 4 + |Frames(items)|; BytesInt(bytes[n - 4..n]) == |items[|items| - 1]|
  {
    var n := 4 + |Frames(items)|;
    LastFrame(items);
    Slice(bytes, 4, n, n - 8, n - 4);
    IntRoundTrip(|items[|items| - 1]|);
  }

  lemma SameTail(a: seq<byte>, b: seq<byte>, m: nat, n: nat)
    requires 4 <= m <= n <= |a| == |b| && b[4..] == a[4..]
    ensures b[4..m] == a[4..n][..m - 4]
  {
    forall k | 0 <= k < m - 4 ensures b[4..m][k] == a[4..n][..m - 4][k] {
      assert b[4..][k] == a[4..][k];
    }
  }

  lemma ShorterHolds(bytes: seq<byte>, next: seq<byte>, items: seq<seq<byte>>)
    requires Holds(bytes, items) && items != [] && |next| == |bytes| && next[4..] == bytes[4..]
    requires next[..4] == IntBytes(4 + |Frames(items[..|items| - 1])|)
    ensures Holds(next, items[..|items| - 1])
  {
    LastFrame(items);
    SameTail(bytes, next, 4 + |Frames(items[..|items| - 1])|, 4 + |Frames(items)|);
  }

  /** A legal pop drops exactly the last element and touches only the header. */
  lemma PopHolds(bytes: seq<byte>, items: seq<seq<byte>>)
    requires Holds(bytes, items) && items != []
    ensures Sound(bytes) && Holds(PopFrom(bytes), items[..|items| - 1])
    ensures |PopFrom(bytes)| == |bytes| && PopFrom(bytes)[4..] == bytes[4..]
  {
    var m := 4 + |Frames(items[..|items| - 1])|;
    HoldsSound(bytes, items);
    LastSize(bytes, items);
    PopMoves(bytes, |items[|items| - 1]|);
    HeaderWritten(bytes, IntBytes(m));
    ShorterHolds(bytes, PopFrom(bytes), items);
  }

  /** Popping an empty vector changes nothing: the size it reads is its own header, and the seek fails. */
  lemma PopEmpty(bytes: seq<byte>)
    requires Holds(bytes, [])
    ensures Sound(bytes) && PopFrom(bytes) == bytes
  {
    HoldsSound(bytes, []);
    assert bytes[4 - 4..4] == bytes[..4];
  }

  /** Two files that hold the same elements have the same live bytes. */
  lemma LiveBytes(a: seq<byte>, b: seq<byte>, items: seq<seq<byte>>)
    requires Holds(a, items) && Holds(b, items)
    ensures a[..4 + |Frames(items)|] == b[..4 + |Frames(items)|]
  {
  }

  lemma AppendThenPop(bytes: seq<byte>, next: seq<byte>, items: seq<seq<byte>>, p: seq<byte>)
    requires Holds(bytes, items) && Holds(next, items + [p])
    ensures Sound(next) && Holds(PopFrom(next), items)
  {
    PopHolds(next, items + [p]);
    assert (items + [p])[..|items + [p]| - 1] == items;
  }

  /** Pop undoes append: every live byte, the header included, is as before. */
  lemma PopUndoesAppend(bytes: seq<byte>, items: seq<seq<byte>>, p: seq<byte>)
    requires Holds(bytes, items) && 4 + |Frames(items)| + |Frame(p)| < INT_LIMIT
    ensures Sound(bytes) && Sound(AppendTo(bytes, p)) && Holds(PopFrom(AppendTo(bytes, p)), items)
    ensures PopFrom(AppendTo(bytes, p))[..4 + |Frames(items)|] == bytes[..4 + |Frames(items)|]
  {
    AppendHolds(bytes, items, p);
    AppendThenPop(bytes, AppendTo(bytes, p), items, p);
    LiveBytes(bytes, PopFrom(AppendTo(bytes, p)), items);
  }

  lemma {:induction false} FramesUpTo(items: seq<seq<byte>>, k: nat)
    requires k <= |items|
    ensures |Frames(items[..k])| <= |Frames(items)| && Frames(items)[..|Frames(items[..k])|] == Frames(items[..k])
    ensures k < |items| ==> |Frames(items[..k])| < |Frames(items)|
    decreases |items|
  {
    if k < |items| {
      var init := items[..|items| - 1];
      FramesUpTo(init, k);
      assert init[..k] == items[..k];
    } else {
      assert items[..k] == items;
    }
  }

  lemma FrameIn(items: seq<seq<byte>>, k: nat)
    requires k < |items|
    ensures var at, n := |Frames(items[..k])|, |Frame(items[k])|;
            && at + n == |Frames(items[..k + 1])| <= |Frames(items)|
            && Frames(items)[at..at + n] == Frame(items[k])
  {
    var first, fs := items[..k + 1], Frames(items);
    FramesUpTo(items, k + 1);
    assert first[..|first| - 1] == items[..k];
    assert Frames(first) == Frames(items[..k]) + Frame(items[k]);
    Slice(fs, 0, |Frames(first)|, |Frames(items[..k])|, |Frames(first)|);
  }

  lemma FrameParts(bytes: seq<byte>, at: nat, p: seq<byte>)
    requires |p| < INT_LIMIT && at + |p| + 8 <= |bytes| && bytes[at..at + |p| + 8] == Frame(p)
    ensures BytesInt(bytes[at..at + 4]) == |p| && bytes[at + 4..at + 4 + |p|] == p
    ensures BytesInt(bytes[at + 4 + |p|..at + 8 + |p|]) == |p|
  {
    IntRoundTrip(|p|);
    Slice(bytes, at, at + |p| + 8, 0, 4);
    Slice(bytes, at, at + |p| + 8, 4, 4 + |p|);
    Slice(bytes, at, at + |p| + 8, 4 + |p|, 8 + |p|);
    assert Frame(p)[..4] == IntBytes(|p|) && Frame(p)[4..4 + |p|] == p;
    assert Frame(p)[4 + |p|..8 + |p|] == IntBytes(|p|);
  }

  /** The frame that follows the first k elements is that of element k. */
  lemma FrameAt(bytes: seq<byte>, items: seq<seq<byte>>, k: nat)
    requires Holds(bytes, items) && k < |items|
    ensures var at := 4 + |Frames(items[..k])|; var p := items[k];
            && at + |p| + 8 <= 4 + |Frames(items)| <= |bytes|
            && at + |p| + 8 == 4 + |Frames(items[..k + 1])|
            && bytes[at..at + |p| + 8] == Frame(p)
  {
    var before, p := |Frames(items[..k])|, items[k];
    FrameIn(items, k);
    Slice(bytes, 4, 4 + |Frames(items)|, before, before + |p| + 8);
  }

  /** The last frame's two sizes, where `pop` reads them. */
  lemma LastSizes(bytes: seq<byte>, items: seq<seq<byte>>)
    requires Holds(bytes, items) && items != []
    ensures var n, size := 4 + |Frames(items)|, |items[|items| - 1]|;
            && n - size - 8 >= 4 && BytesInt(bytes[n - 4..n]) == size
            && BytesInt(bytes[n - size - 8..n - size - 4]) == size
  {
    var k := |items| - 1;
    assert items[..k + 1] == items;
    FrameAt(bytes, items, k);
    FrameParts(bytes, 4 + |Frames(items[..k])|, items[k]);
    LastSize(bytes, items);
  }

  datatype Op = Append(p: seq<byte>) | Pop

  /** The vector as a stack of payloads; popping an empty one leaves it empty. */
  function StackStep(items: seq<seq<byte>>, op: Op): seq<seq<byte>> {
    match op
    case Append(p) => items + [p]
    case Pop => if items == [] then items else items[..|items| - 1]
  }

  function StackAfter(items: seq<seq<byte>>, ops: seq<Op>): seq<seq<byte>>
    decreases |ops|
  {
    if ops == [] then items else StackAfter(StackStep(items, ops[0]), ops[1..])
  }

  /** The file stays below 2^31 bytes all along. */
  ghost predicate Fits(items: seq<seq<byte>>, ops: seq<Op>)
    decreases |ops|
  {
    && 4 + |Frames(items)| < INT_LIMIT
    && (ops != [] ==> Fits(StackStep(items, ops[0]), ops[1..]))
  }

  function Apply(bytes: seq<byte>, op: Op): seq<byte>
    requires Sound(bytes)
  {
    match op
    case Append(p) => AppendTo(bytes, p)
    case Pop => PopFrom(bytes)
  }

  lemma ApplyHolds(bytes: seq<byte>, items: seq<seq<byte>>, op: Op)
    requires Holds(bytes, items) && 4 + |Frames(StackStep(items, op))| < INT_LIMIT
    ensures Sound(bytes) && Holds(Apply(bytes, op), StackStep(items, op))
  {
    match op
    case Append(p) =>
      assert (items + [p])[..|items|] == items;
      AppendHolds(bytes, items, p);
    case Pop =>
      if items == [] { PopEmpty(bytes); } else { PopHolds(bytes, items); }
  }

  /** The file after a run of operations. */
  ghost predicate FileRun(files: seq<seq<byte>>, ops: seq<Op>) {
    && |files| == |ops| + 1
    && forall k | 0 <= k < |ops| :: Sound(files[k]) && files[k + 1] == Apply(files[k], ops[k])
  }

  /** Refinement: whatever stale bytes lie past the header length, every run of appends and pops that stays
      below 2^31 bytes keeps the file a faithful copy of the stack. */
  lemma {:induction false} FileRefinesStack(files: seq<seq<byte>>, items: seq<seq<byte>>, ops: seq<Op>)
    requires FileRun(files, ops) && Holds(files[0], items) && Fits(items, ops)
    ensures Holds(files[|ops|], StackAfter(items, ops))
    decreases |ops|
  {
    if ops == [] {
    } else {
      assert files[0 + 1] == Apply(files[0], ops[0]);
      ApplyHolds(files[0], items, ops[0]);
      forall k | 0 <= k < |ops[1..]|
        ensures Sound(files[1..][k]) && files[1..][k + 1] == Apply(files[1..][k], ops[1..][k])
      {
        assert Sound(files[k + 1]) && files[k + 2] == Apply(files[k + 1], ops[k + 1]);
      }
      FileRefinesStack(files[1..], StackStep(items, ops[0]), ops[1..]);
    }
  }

  class File {
    var present: bool
    var bytes: seq<byte>

    /** The vector the file stands for. */
    ghost predicate Stores(items: seq<seq<byte>>)
      reads this
    {
      if present then Holds(bytes, items) else items == []
    }

    constructor ()
      ensures Stores([])
    {
      present, bytes := false, [];
    }

    /** Creates the file if there is none; seeks to the length, writes the frame, rewrites the length. */
    method Append(ghost items: seq<seq<byte>>, p: seq<byte>)
      requires Stores(items) && 4 + |Frames(items)| + |Frame(p)| < INT_LIMIT
      modifies this
      ensures present && Stores(items + [p])
      ensures old(present) && Sound(old(bytes)) ==> bytes == AppendTo(old(bytes), p)
    {
      if !present {
        present := true;
        bytes := IntBytes(4);
      }
      assert Holds(bytes, items);
      AppendHolds(bytes, items, p);
      var length := Header(bytes);
      var data := IntBytes(|p|) + p + IntBytes(|p|);
      bytes := Overwrite(bytes, length, data);
      length := length + |data|;
      bytes := Overwrite(bytes, 0, IntBytes(length));
    }

    /** Reads one frame: its size, its payload, and its size again. */
    method ReadFrame(ghost items: seq<seq<byte>>, ghost k: nat, at: nat)
      returns (buffer: seq<byte>, next: nat, agrees: bool)
      requires Holds(bytes, items) && k < |items| && at == 4 + |Frames(items[..k])|
      ensures buffer == items[k] && agrees && at < next == 4 + |Frames(items[..k + 1])|
    {
      FrameAt(bytes, items, k);
      FrameParts(bytes, at, items[k]);
      var size := BytesInt(bytes[at..at + 4]);
      buffer := bytes[at + 4..at + 4 + size];
      next := at + 4 + size + 4;
      agrees := size == BytesInt(bytes[at + 4 + size..next]);
    }

    /** A missing file is an error. Where the two sizes of a frame disagree the source builds an exception and
        drops it; in a file that holds a vector they never do. */
    method GetVector(ghost items: seq<seq<byte>>) returns (ans: Option<seq<seq<byte>>>, agrees: bool)
      requires Stores(items)
      ensures ans == (if present then Some(items) else None) && agrees
    {
      agrees := true;
      if !present { return None, agrees; }
      HoldsSound(bytes, items);
      var length := Header(bytes);
      var pos, v := 4, [];
      ghost var k := 0;
      while pos < length
        invariant 0 <= k <= |items| && v == items[..k] && agrees
        invariant pos == 4 + |Frames(items[..k])| <= length
        invariant k == |items| <==> pos == length
        decreases length - pos
      {
        var buffer, next, same := ReadFrame(items, k, pos);
        agrees := agrees && same;
        v, pos := v + [buffer], next;
        k := k + 1;
        FramesUpTo(items, k);
        assert k == |items| ==> items[..k] == items;
      }
      assert items[..k] == items;
      ans := Some(v);
    }

    /** A missing file is an error; popping an empty vector fails quietly. */
    method Pop(ghost items: seq<seq<byte>>) returns (ok: bool, agrees: bool)
      requires Stores(items)
      modifies this`bytes
      ensures ok == present && agrees
      ensures present ==> Sound(old(bytes)) && bytes == PopFrom(old(bytes)) && Stores(StackStep(items, Op.Pop))
      ensures !present ==> bytes == old(bytes)
    {
      if !present { return false, true; }
      HoldsSound(bytes, items);
      if items == [] { PopEmpty(bytes); } else { LastSizes(bytes, items); PopHolds(bytes, items); }
      var length := Header(bytes);
      var size := BytesInt(bytes[length - 4..length]);
      var begin := length - size - 8;
      ok, agrees := true, true;
      if 0 <= begin <= |bytes| - 4 {
        agrees := size == BytesInt(bytes[begin..begin + 4]);
        bytes := Overwrite(bytes, 0, IntBytes(begin));
      }
    }
  }
}
