/**
 * var::Message: a message buffer that moves between an initial, a
 * create, an edit and a read state, and that frames itself on a device
 * with a four-byte start word.
 *
 * The son image functions (`create_image`, `open_edit_image`,
 * `open_read_image`, `seek`) and `close` are not part of this model: their
 * return values are parameters. The device is a script of replies, one per
 * read or write call; a script that ends while a loop would call the device
 * again leaves the call "stalled". `timeout()` and `MESSAGE_START` are
 * parameters too.
 */
module Message {

  datatype State = InitState | CreateState | EditState | ReadState

  // ---------------------------------------------------------------------
  // The device
  // ---------------------------------------------------------------------

  /** What one `read` of the device gives back: a failure, or some bytes. */
  datatype ReadReply = ReadFailed | ReadBytes(bytes: seq<bv8>)

  /** Failed reads among the replies `s`. */
  function Failures(s: seq<ReadReply>): nat
  {
    if s == [] then 0
    else Failures(s[..|s| - 1]) + (if s[|s| - 1].ReadFailed? then 1 else 0)
  }

  /** The bytes the replies `s` deliver, in order. */
  function Delivered(s: seq<ReadReply>): seq<bv8>
  {
    if s == [] then []
    else Delivered(s[..|s| - 1]) + (if s[|s| - 1].ReadFailed? then [] else s[|s| - 1].bytes)
  }

  /**
   * A write of the device returns a negative number when it fails and the
   * number of bytes it took otherwise.
   */
  function Written(s: seq<int>): int
  {
    if s == [] then 0
    else Written(s[..|s| - 1]) + (if s[|s| - 1] < 0 then 0 else s[|s| - 1])
  }

  /** The failed writes at the end of `s` since the last successful one. */
  function TrailingFailures(s: seq<int>): nat
  {
    if s == [] then 0
    else if s[|s| - 1] < 0 then TrailingFailures(s[..|s| - 1]) + 1
    else 0
  }

  lemma ReadPrefixStep(s: seq<ReadReply>, n: nat)
    requires n < |s|
    ensures Failures(s[..n + 1]) == Failures(s[..n]) + (if s[n].ReadFailed? then 1 else 0)
    ensures Delivered(s[..n + 1]) == Delivered(s[..n]) + (if s[n].ReadFailed? then [] else s[n].bytes)
  {
    assert s[..n + 1][..n] == s[..n];
  }

  lemma WritePrefixStep(s: seq<int>, n: nat)
    requires n < |s|
    ensures Written(s[..n + 1]) == Written(s[..n]) + (if s[n] < 0 then 0 else s[n])
    ensures TrailingFailures(s[..n + 1]) == if s[n] < 0 then TrailingFailures(s[..n]) + 1 else 0
  {
    assert s[..n + 1][..n] == s[..n];
  }

  // ---------------------------------------------------------------------
  // When the receive and send loops stop
  // ---------------------------------------------------------------------

  /**
   * recv_data gives up after its k-th read when that read failed and the
   * failures so far, counted over the whole call, reach the timeout.
   */
  predicate RecvGivesUp(s: seq<ReadReply>, k: nat, timeout: int)
    requires 1 <= k <= |s|
  {
    s[k - 1].ReadFailed? && Failures(s[..k]) == timeout
  }

  /** recv_data stops after its k-th read: it gave up or has all the bytes. */
  predicate RecvStops(s: seq<ReadReply>, k: nat, nbytes: int, timeout: int)
    requires 1 <= k <= |s|
  {
    RecvGivesUp(s, k, timeout) || |Delivered(s[..k])| >= nbytes
  }

  /** recv_data goes on after each of its first n reads. */
  predicate RecvContinues(s: seq<ReadReply>, n: nat, nbytes: int, timeout: int)
    requires n <= |s|
  {
    forall k :: 1 <= k <= n ==> !RecvStops(s, k, nbytes, timeout)
  }

  lemma RecvContinuesExtend(s: seq<ReadReply>, n: nat, nbytes: int, timeout: int)
    requires n < |s| && RecvContinues(s, n, nbytes, timeout)
    requires !RecvStops(s, n + 1, nbytes, timeout)
    ensures RecvContinues(s, n + 1, nbytes, timeout)
  {
  }

  /**
   * send_data gives up after its k-th write when that write failed and the
   * failures since the last successful write reach the timeout.
   */
  predicate SendGivesUp(s: seq<int>, k: nat, timeout: int)
    requires 1 <= k <= |s|
  {
    s[k - 1] < 0 && TrailingFailures(s[..k]) == timeout
  }

  predicate SendStops(s: seq<int>, k: nat, nbytes: int, timeout: int)
    requires 1 <= k <= |s|
  {
    SendGivesUp(s, k, timeout) || Written(s[..k]) >= nbytes
  }

  predicate SendContinues(s: seq<int>, n: nat, nbytes: int, timeout: int)
    requires n <= |s|
  {
    forall k :: 1 <= k <= n ==> !SendStops(s, k, nbytes, timeout)
  }

  lemma SendContinuesExtend(s: seq<int>, n: nat, nbytes: int, timeout: int)
    requires n < |s| && SendContinues(s, n, nbytes, timeout)
    requires !SendStops(s, n + 1, nbytes, timeout)
    ensures SendContinues(s, n + 1, nbytes, timeout)
  {
  }

  /** The failed writes TrailingFailures counts are the last ones of `s`. */
  lemma {:induction false} TrailingFailuresAreLast(s: seq<int>)
    ensures TrailingFailures(s) <= |s|
    ensures forall j :: |s| - TrailingFailures(s) <= j < |s| ==> s[j] < 0
    ensures TrailingFailures(s) < |s| ==> s[|s| - 1 - TrailingFailures(s)] >= 0
  {
    if s != [] && s[|s| - 1] < 0 {
      var p := s[..|s| - 1];
      TrailingFailuresAreLast(p);
      forall j | |s| - TrailingFailures(s) <= j < |s| - 1
        ensures s[j] < 0
      {
        assert s[j] == p[j];
      }
    }
  }

  /**
   * send_data gives up only after `timeout` failed writes in a row, with a
   * successful write (or the start of the call) just before them.
   */
  lemma SendGivesUpAfterConsecutiveFailures(s: seq<int>, k: nat, timeout: int)
    requires 1 <= k <= |s| && SendGivesUp(s, k, timeout)
    ensures 1 <= timeout <= k
    ensures forall j :: k - timeout <= j < k ==> s[j] < 0
    ensures timeout < k ==> s[k - 1 - timeout] >= 0
  {
    TrailingFailuresAreLast(s[..k]);
  }

  /**
   * recv_data counts every failure of the call, successful reads in
   * between or not, so the same pattern of failures that send_data rides
   * out makes recv_data give up.
   */
  lemma FailureCountersDiffer()
    ensures RecvGivesUp([ReadFailed, ReadBytes([]), ReadFailed], 3, 2)
    ensures SendContinues([-1, 0, -1], 3, 1, 2)
  {
    var r := [ReadFailed, ReadBytes([]), ReadFailed];
    assert r[..1] == [ReadFailed] && r[..2] == [ReadFailed, ReadBytes([])] && r[..3] == r;
    assert r[..1][..0] == [] && r[..2][..1] == r[..1] && r[..3][..2] == r[..2];
    assert Failures(r[..1]) == 1;
    assert Failures(r[..2]) == Failures(r[..1]);
    assert Failures(r[..3]) == Failures(r[..2]) + 1;
    var w := [-1, 0, -1];
    assert w[..1] == [-1] && w[..2] == [-1, 0] && w[..3] == w;
    assert w[..1][..0] == [] && w[..2][..1] == w[..1] && w[..3][..2] == w[..2];
    assert Written(w[..1]) == 0;
    assert Written(w[..2]) == Written(w[..1]) + 0;
    assert Written(w[..3]) == Written(w[..2]);
    assert TrailingFailures(w[..1]) == 1 && TrailingFailures(w[..2]) == 0;
    assert TrailingFailures(w[..3]) == TrailingFailures(w[..2]) + 1;
  }

  // ---------------------------------------------------------------------
  // Reading one byte at a time
  // ---------------------------------------------------------------------

  /** The outcome of recv_data(&c, 1): a byte after `used` replies, a give-up, or a script that ran out. */
  datatype ByteRead = GotByte(used: nat, c: bv8) | GaveUp(used: nat) | RanOut

  /**
   * A one-byte read scanned from reply i with `count` failures so far: a
   * failure that brings the count to the timeout gives up, the first reply
   * carrying bytes yields its first byte, and an empty reply reads on.
   */
  function RecvOneFrom(s: seq<ReadReply>, timeout: int, i: nat, count: nat): (o: ByteRead)
    requires i <= |s|
    ensures (o.GotByte? || o.GaveUp?) ==> i < o.used <= |s|
    decreases |s| - i
  {
    if i == |s| then RanOut
    else if s[i].ReadFailed? then
      if count + 1 == timeout then GaveUp(i + 1) else RecvOneFrom(s, timeout, i + 1, count + 1)
    else if |s[i].bytes| >= 1 then GotByte(i + 1, s[i].bytes[0])
    else RecvOneFrom(s, timeout, i + 1, count)
  }

  /** The one-byte read at the start of the replies `s`. */
  function RecvOne(s: seq<ReadReply>, timeout: int): (o: ByteRead)
    ensures (o.GotByte? || o.GaveUp?) ==> 0 < o.used <= |s|
  {
    RecvOneFrom(s, timeout, 0, 0)
  }

  /**
   * The bytes that successive one-byte reads take from the replies `s`,
   * up to the first read that does not yield a byte.
   */
  function Stream(s: seq<ReadReply>, timeout: int): seq<bv8>
    decreases |s|
  {
    var o := RecvOne(s, timeout);
    if o.GotByte? then [o.c] + Stream(s[o.used..], timeout) else []
  }

  /** The number of replies the first m one-byte reads of `s` consume. */
  function After(s: seq<ReadReply>, timeout: int, m: nat): (p: nat)
    requires m <= |Stream(s, timeout)|
    ensures p <= |s|
    decreases |s|
  {
    if m == 0 then 0
    else
      var o := RecvOne(s, timeout);
      o.used + After(s[o.used..], timeout, m - 1)
  }

  /**
   * The read after the first m bytes of the stream yields byte m when the
   * stream goes on, and does not yield a byte where the stream ends.
   */
  lemma {:induction false} StreamStep(s: seq<ReadReply>, timeout: int, m: nat)
    requires m <= |Stream(s, timeout)|
    ensures var o := RecvOne(s[After(s, timeout, m)..], timeout);
      && (m < |Stream(s, timeout)| ==>
            o.GotByte? && o.c == Stream(s, timeout)[m]
            && After(s, timeout, m + 1) == After(s, timeout, m) + o.used)
      && (m == |Stream(s, timeout)| ==> !o.GotByte?)
    decreases m
  {
    if m == 0 {
      assert s[0..] == s;
    } else {
      var o := RecvOne(s, timeout);
      var rest := s[o.used..];
      StreamStep(rest, timeout, m - 1);
      assert s[o.used + After(rest, timeout, m - 1)..] == rest[After(rest, timeout, m - 1)..];
    }
  }

  /**
   * recv_data with nbytes 1, as characterised by when it stops, agrees with
   * the scan: it gives up at the k-th reply or yields the first byte there.
   */
  lemma {:induction false} RecvOneFromStops(s: seq<ReadReply>, timeout: int, i: nat, k: nat)
    requires i < k <= |s|
    requires RecvContinues(s, k - 1, 1, timeout) && RecvStops(s, k, 1, timeout)
    requires Delivered(s[..i]) == []
    ensures RecvOneFrom(s, timeout, i, Failures(s[..i]))
      == if RecvGivesUp(s, k, timeout) then GaveUp(k) else GotByte(k, Delivered(s[..k])[0])
    decreases k - i
  {
    ReadPrefixStep(s, i);
    if i + 1 < k {
      assert !RecvStops(s, i + 1, 1, timeout);
      RecvOneFromStops(s, timeout, i + 1, k);
    }
  }

  /** When recv_data with nbytes 1 never stops, the scan runs out of replies. */
  lemma {:induction false} RecvOneFromRunsOut(s: seq<ReadReply>, timeout: int, i: nat)
    requires i <= |s| && RecvContinues(s, |s|, 1, timeout)
    requires Delivered(s[..i]) == []
    ensures RecvOneFrom(s, timeout, i, Failures(s[..i])) == RanOut
    decreases |s| - i
  {
    if i < |s| {
      ReadPrefixStep(s, i);
      assert !RecvStops(s, i + 1, 1, timeout);
      RecvOneFromRunsOut(s, timeout, i + 1);
    }
  }

  // ---------------------------------------------------------------------
  // The start word
  // ---------------------------------------------------------------------

  /**
   * The start word as it arrives on the wire: byte i is
   * `(start >> (i * 8)) & 0xff`, least significant first.
   */
  function StartBytes(start: bv32): (r: seq<bv8>)
    ensures |r| == 4
  {
    [(start & 0xFF) as bv8, ((start >> 8) & 0xFF) as bv8,
     ((start >> 16) & 0xFF) as bv8, ((start >> 24) & 0xFF) as bv8]
  }

  /** Byte i of the start word. */
  function StartByte(start: bv32, i: nat): bv8
    requires i < 4
  {
    StartBytes(start)[i]
  }

  /**
   * The match index recv_start holds after seeing the bytes `r`: one more
   * on the expected byte, back to 0 on any other (that byte is not looked
   * at again), and 4 for good once the word is complete.
   */
  function SyncIndex(r: seq<bv8>, start: bv32): (i: nat)
    ensures i <= 4
  {
    if r == [] then 0
    else
      var p := SyncIndex(r[..|r| - 1], start);
      if p == 4 then 4
      else if r[|r| - 1] == StartByte(start, p) then p + 1
      else 0
  }

  lemma SyncIndexStep(p: seq<bv8>, c: bv8, start: bv32)
    ensures SyncIndex(p + [c], start)
      == if SyncIndex(p, start) == 4 then 4
         else if c == StartByte(start, SyncIndex(p, start)) then SyncIndex(p, start) + 1
         else 0
  {
    assert (p + [c])[..|p|] == p;
  }

  /** Slicing facts, stated apart from the start word so that it is not unfolded for them. */
  lemma SnocSlices(p: seq<bv8>, c: bv8, w: seq<bv8>, i: nat)
    requires i <= |p| && i < |w|
    ensures (p + [c])[|p| - i..] == p[|p| - i..] + [c]
    ensures w[..i + 1] == w[..i] + [w[i]]
    ensures (p + [c])[|p| + 1..] == [] == w[..0]
  {
  }

  /** The last four of the bytes `r` are the start word. */
  predicate EndsWithStart(r: seq<bv8>, start: bv32)
  {
    |r| >= 4 && r[|r| - 4..] == StartBytes(start)
  }

  /**
   * Until the word is complete, the match index counts the bytes at the
   * end of `r` that equal the start of the word.
   */
  lemma {:induction false} SyncIndexCountsMatchedSuffix(r: seq<bv8>, start: bv32)
    requires SyncIndex(r, start) < 4
    ensures SyncIndex(r, start) <= |r|
    ensures r[|r| - SyncIndex(r, start)..] == StartBytes(start)[..SyncIndex(r, start)]
  {
    if r != [] {
      var p, c := r[..|r| - 1], r[|r| - 1];
      assert r == p + [c];
      SyncIndexStep(p, c, start);
      SyncIndexCountsMatchedSuffix(p, start);
      SnocSlices(p, c, StartBytes(start), SyncIndex(p, start));
    }
  }

  /** So when the match index first reaches 4, the last four bytes are the start word. */
  lemma SyncCompleteEndsWithStart(p: seq<bv8>, c: bv8, start: bv32)
    requires SyncIndex(p, start) < 4 && SyncIndex(p + [c], start) == 4
    ensures EndsWithStart(p + [c], start)
  {
    SyncIndexCountsMatchedSuffix(p, start);
    SyncIndexStep(p, c, start);
    SnocSlices(p, c, StartBytes(start), 3);
  }

  /** No prefix of `r`, `r` itself included, ends with the start word. */
  predicate NoStartWithin(r: seq<bv8>, start: bv32)
  {
    forall k :: 0 <= k <= |r| ==> !EndsWithStart(r[..k], start)
  }

  lemma NoStartWithinExtend(r: seq<bv8>, c: bv8, start: bv32)
    requires NoStartWithin(r, start) && !EndsWithStart(r + [c], start)
    ensures NoStartWithin(r + [c], start)
  {
    forall k | 0 <= k <= |r| + 1
      ensures !EndsWithStart((r + [c])[..k], start)
    {
      if k <= |r| {
        assert (r + [c])[..k] == r[..k];
      } else {
        assert (r + [c])[..k] == r + [c];
      }
    }
  }

  /**
   * recv_start misses a start word whose first byte arrives just after a
   * false start: on `s0 s0 s1 s2 s3` the matcher stops at the second `s0`,
   * and has not synchronised once the complete word has arrived.
   */
  lemma SyncMissesWordAfterFalseStart(start: bv32)
    requires StartByte(start, 0) != StartByte(start, 1)
    ensures var r := [StartByte(start, 0)] + StartBytes(start);
      EndsWithStart(r, start) && NoStartWithin(r[..4], start) && SyncIndex(r, start) < 4
  {
    var w := StartBytes(start);
    var r := [w[0]] + w;
    assert r[1..] == w;
    assert r[..1][..0] == [] && r[..2][..1] == r[..1] && r[..3][..2] == r[..2];
    assert r[..4][..3] == r[..3] && r[..5][..4] == r[..4] && r[..5] == r;
    assert SyncIndex(r[..1], start) == 1;
    assert SyncIndex(r[..2], start) == 0;
    assert SyncIndex(r[..3], start) <= 1;
    assert SyncIndex(r[..4], start) <= 2;
    assert r[..4][0..] != w by {
      assert r[..4][1] != w[1];
    }
    forall k | 0 <= k <= 4
      ensures !EndsWithStart(r[..4][..k], start)
    {
      if k == 4 {
        assert r[..4][..k][k - 4..] == r[..4][0..];
      }
    }
  }

  // ---------------------------------------------------------------------
  // The message
  // ---------------------------------------------------------------------

  class Message {
    var state: State
    /** The message's data buffer. */
    var data: seq<bv8>
    const capacity: nat

    /** Message(device, max_capacity): an INIT message with a cleared buffer. */
    constructor (maxCapacity: nat)
      ensures state == InitState && capacity == maxCapacity
      ensures data == Cleared(maxCapacity)
    {
      capacity := maxCapacity;
      data := Cleared(maxCapacity);
      state := InitState;
    }

    /** The buffer after `clear()`: every byte zero. */
    static function Cleared(n: nat): (r: seq<bv8>)
      ensures |r| == n && forall i :: 0 <= i < n ==> r[i] == 0
    {
      seq(n, _ => 0)
    }

    /**
     * create(): clears the buffer and creates an image in it. On success
     * (`imageRet >= 0`) the message is in CREATE with the image written by
     * the image function; otherwise it is back in INIT with a cleared
     * buffer. The image function's result is returned either way.
     */
    method Create(imageRet: int, image: seq<bv8>) returns (ret: int)
      modifies this
      ensures ret == imageRet
      ensures ret >= 0 ==> state == CreateState && data == image
      ensures ret < 0 ==> state == InitState && data == Cleared(capacity)
    {
      data := Cleared(capacity);
      ret := imageRet;
      if ret >= 0 {
        data := image;
        state := CreateState;
      } else {
        data := Cleared(capacity);
        state := InitState;
      }
    }

    /**
     * edit(): nothing to do, and 0, when already editing; otherwise the
     * image is closed and re-opened for editing, and the message enters
     * EDIT only if that succeeds.
     */
    method Edit(openRet: int) returns (ret: int)
      modifies this
      ensures data == old(data)
      ensures old(state) == EditState ==> ret == 0 && state == EditState
      ensures old(state) != EditState ==> ret == openRet
      ensures old(state) != EditState ==> state == if openRet >= 0 then EditState else old(state)
    {
      ret := 0;
      if state != EditState {
        ret := openRet;
        if ret >= 0 {
          state := EditState;
        }
      }
    }

    /** read(): edit() for the READ state. */
    method Read(openRet: int) returns (ret: int)
      modifies this
      ensures data == old(data)
      ensures old(state) == ReadState ==> ret == 0 && state == ReadState
      ensures old(state) != ReadState ==> ret == openRet
      ensures old(state) != ReadState ==> state == if openRet >= 0 then ReadState else old(state)
    {
      ret := 0;
      if state != ReadState {
        ret := openRet;
        if ret >= 0 {
          state := ReadState;
        }
      }
    }

    /**
     * calc_size(): in READ, the offset `seek("")` returns plus the data size
     * it reports, as a u32; -1 as a u32 when not in READ or when the seek
     * fails.
     */
    function CalcSize(seekOffset: int, seekSize: int): (r: nat)
      reads this
      ensures r < 0x1_0000_0000
      ensures state != ReadState || seekOffset < 0 ==> r == 0xFFFF_FFFF
      ensures state == ReadState && seekOffset >= 0 && 0 <= seekSize + seekOffset < 0x1_0000_0000
        ==> r == seekSize + seekOffset
    {
      if state == ReadState && seekOffset >= 0 then (seekSize + seekOffset) % 0x1_0000_0000
      else 0xFFFF_FFFF
    }

    /**
     * recv_data(data, nbytes): reads until `nbytes` bytes have arrived or
     * the reads that failed, counted over the whole call, reach `timeout`.
     * It stops after the first read where one of the two holds (at least
     * one read is made), returning -1 when it gave up and `nbytes`
     * otherwise; `received` is what was written to the buffer.
     */
    method RecvData(script: seq<ReadReply>, nbytes: int, timeout: int)
      returns (ret: int, used: nat, received: seq<bv8>, stalled: bool)
      ensures used <= |script| && received == Delivered(script[..used])
      ensures stalled ==> used == |script| && RecvContinues(script, used, nbytes, timeout)
      ensures !stalled ==> 1 <= used && RecvContinues(script, used - 1, nbytes, timeout)
      ensures !stalled ==> RecvStops(script, used, nbytes, timeout)
      ensures !stalled && RecvGivesUp(script, used, timeout) ==> ret == -1
      ensures !stalled && !RecvGivesUp(script, used, timeout) ==> ret == nbytes && |received| >= nbytes
    {
      var bytes := 0;
      var count := 0;
      used, received := 0, [];
      while true
        invariant used <= |script|
        invariant received == Delivered(script[..used]) && bytes == |received|
        invariant count == Failures(script[..used])
        invariant RecvContinues(script, used, nbytes, timeout)
        decreases |script| - used
      {
        if used == |script| {
          return 0, used, received, true;
        }
        var reply := script[used];
        ReadPrefixStep(script, used);
        used := used + 1;
        if reply.ReadFailed? {
          count := count + 1;
          if count == timeout {
            return -1, used, received, false;
          }
        } else {
          bytes := bytes + |reply.bytes|;
          received := received + reply.bytes;
        }
        if !(bytes < nbytes) {
          return nbytes, used, received, false;
        }
        RecvContinuesExtend(script, used - 1, nbytes, timeout);
      }
    }

    /**
     * send_data(data, nbytes): writes until `nbytes` bytes have gone out;
     * the failure count starts again after every successful write, so it
     * gives up only after `timeout` failures in a row. Returns -1 when it
     * gave up and `nbytes` otherwise.
     */
    method SendData(script: seq<int>, nbytes: int, timeout: int)
      returns (ret: int, used: nat, stalled: bool)
      ensures used <= |script|
      ensures stalled ==> used == |script| && SendContinues(script, used, nbytes, timeout)
      ensures !stalled ==> 1 <= used && SendContinues(script, used - 1, nbytes, timeout)
      ensures !stalled ==> SendStops(script, used, nbytes, timeout)
      ensures !stalled && SendGivesUp(script, used, timeout) ==> ret == -1
      ensures !stalled && !SendGivesUp(script, used, timeout) ==> ret == nbytes && Written(script[..used]) >= nbytes
    {
      var bytes := 0;
      var count := 0;
      used := 0;
      while true
        invariant used <= |script|
        invariant bytes == Written(script[..used])
        invariant count == TrailingFailures(script[..used])
        invariant SendContinues(script, used, nbytes, timeout)
        decreases |script| - used
      {
        if used == |script| {
          return 0, used, true;
        }
        var ret := script[used];
        WritePrefixStep(script, used);
        used := used + 1;
        if ret < 0 {
          count := count + 1;
          if count == timeout {
            return -1, used, false;
          }
        } else {
          count := 0;
          bytes := bytes + ret;
        }
        if !(bytes < nbytes) {
          return nbytes, used, false;
        }
        SendContinuesExtend(script, used - 1, nbytes, timeout);
      }
    }

    /**
     * recv_data(&c, 1): one byte from the device. `ok` is false when the
     * read gave up or the script ran out; which of the two, and how many
     * replies were used, is what the scan `RecvOne` gives.
     */
    method RecvByte(script: seq<ReadReply>, timeout: int)
      returns (ok: bool, c: bv8, used: nat, stalled: bool)
      ensures used <= |script| && (ok ==> !stalled)
      ensures !stalled ==> 1 <= used
      ensures ok <==> !stalled && 1 <= used && !RecvGivesUp(script, used, timeout)
      ensures ok ==> |Delivered(script[..used])| >= 1 && c == Delivered(script[..used])[0]
      ensures var o := RecvOne(script, timeout);
        && (ok <==> o.GotByte?) && (stalled <==> o.RanOut?)
        && (ok ==> c == o.c)
        && used == if o.RanOut? then |script| else o.used
    {
      var ret, received;
      ret, used, received, stalled := RecvData(script, 1, timeout);
      assert script[..0] == [];
      if stalled {
        RecvOneFromRunsOut(script, timeout, 0);
      } else {
        RecvOneFromStops(script, timeout, 0, used);
      }
      ok := !stalled && ret >= 0;
      c := if ok then received[0] else 0;
    }

    /**
     * recv_start(): reads one byte at a time until four in a row have
     * matched the start word, least significant byte first; a byte that
     * does not match sends the match index back to 0. Returns false as soon
     * as a read fails. `seen` is the bytes read.
     */
    method RecvStart(script: seq<ReadReply>, timeout: int, start: bv32)
      returns (found: bool, used: nat, seen: seq<bv8>, stalled: bool)
      ensures used <= |script| && (found ==> !stalled)
      ensures |seen| <= |Stream(script, timeout)| && seen == Stream(script, timeout)[..|seen|]
      ensures found ==> used == After(script, timeout, |seen|)
      ensures found ==> |seen| >= 1 && SyncIndex(seen, start) == 4
      ensures found ==> SyncIndex(seen[..|seen| - 1], start) < 4
      ensures found ==> EndsWithStart(seen, start)
      ensures !found ==> seen == Stream(script, timeout) && SyncIndex(seen, start) < 4
      ensures !found ==>
                var p := After(script, timeout, |seen|);
                var o := RecvOne(script[p..], timeout);
                !o.GotByte? && (stalled <==> o.RanOut?) && used == (if o.RanOut? then |script| else p + o.used)
    {
      var i := 0;
      used, seen, stalled := 0, [], false;
      while true
        invariant used <= |script|
        invariant |seen| <= |Stream(script, timeout)| && seen == Stream(script, timeout)[..|seen|]
        invariant used == After(script, timeout, |seen|)
        invariant i < 4 && i == SyncIndex(seen, start)
        decreases |script| - used
      {
        StreamStep(script, timeout, |seen|);
        var ok, c, n, st := RecvByte(script[used..], timeout);
        if !ok {
          return false, used + n, seen, st;
        }
        var before := seen;
        seen := seen + [c];
        used := used + n;
        assert seen[..|seen| - 1] == before;
        assert Stream(script, timeout)[..|seen|] == Stream(script, timeout)[..|before|] + [c];
        if c == StartByte(start, i) {
          i := i + 1;
        } else {
          i := 0;
        }
        if i == 4 {
          SyncCompleteEndsWithStart(before, c, start);
          return true, used, seen, false;
        }
      }
    }

    /**
     * recv_start as intended: returns true as soon as the last four bytes
     * read are the start word, wherever that word begins, and so never
     * reads past a complete start word.
     */
    method RecvStartIntended(script: seq<ReadReply>, timeout: int, start: bv32)
      returns (found: bool, used: nat, seen: seq<bv8>, stalled: bool)
      ensures used <= |script| && (found ==> !stalled)
      ensures |seen| <= |Stream(script, timeout)| && seen == Stream(script, timeout)[..|seen|]
      ensures found ==> used == After(script, timeout, |seen|)
      ensures found ==> EndsWithStart(seen, start) && |seen| >= 1
      ensures found ==> NoStartWithin(seen[..|seen| - 1], start)
      ensures !found ==> seen == Stream(script, timeout) && NoStartWithin(seen, start)
      ensures !found ==>
                var p := After(script, timeout, |seen|);
                var o := RecvOne(script[p..], timeout);
                !o.GotByte? && (stalled <==> o.RanOut?) && used == (if o.RanOut? then |script| else p + o.used)
    {
      used, seen, stalled := 0, [], false;
      while true
        invariant used <= |script|
        invariant |seen| <= |Stream(script, timeout)| && seen == Stream(script, timeout)[..|seen|]
        invariant used == After(script, timeout, |seen|)
        invariant NoStartWithin(seen, start)
        decreases |script| - used
      {
        StreamStep(script, timeout, |seen|);
        var ok, c, n, st := RecvByte(script[used..], timeout);
        if !ok {
          return false, used + n, seen, st;
        }
        var before := seen;
        seen := seen + [c];
        used := used + n;
        assert seen[..|seen| - 1] == before;
        assert Stream(script, timeout)[..|seen|] == Stream(script, timeout)[..|before|] + [c];
        if |seen| >= 4 && seen[|seen| - 4..] == StartBytes(start) {
          return true, used, seen, false;
        }
        NoStartWithinExtend(before, c, start);
      }
    }
  }
}
