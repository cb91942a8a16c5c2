/**
 * sys::Aio: a POSIX asynchronous-I/O control block (`struct aiocb`) and
 * the arguments its `suspend` calls hand to `aio_suspend`.
 *
 * `aio_suspend`, `aio_error` and `aio_return` themselves belong to the
 * operating system and are not part of this model: `suspend` is modelled by
 * the request it passes on. A pointer (the buffer) is modelled by its
 * address, and a control block in a suspend list by the Aio object that
 * owns it.
 */
module Aio {
  import opened Wrappers
  import opened CInt

  /**
   * Values of `sigev_notify`. The model needs only that they differ from
   * each other and from the 0 the default constructor writes; they are the
   * values of newlib's signal header.
   */
  const SIGEV_NONE: int := 1
  const SIGEV_SIGNAL: int := 2

  const USEC_PER_SEC: int := 1000000
  const NSEC_PER_USEC: int := 1000
  const NSEC_PER_SEC: int := 1000000000

  /** struct timespec. */
  datatype Timespec = Timespec(sec: int, nsec: int)

  /**
   * The timespec `suspend` builds from a timeout in microseconds: whole
   * seconds and the remaining microseconds as nanoseconds, with C's
   * truncating `/` and `%`. It describes the same duration, its nanosecond
   * part is a whole number of microseconds below one second, and for a
   * non-negative timeout both parts are non-negative.
   */
  function TimespecOf(timeoutUsec: int): (t: Timespec)
    ensures t.sec * USEC_PER_SEC + t.nsec / NSEC_PER_USEC == timeoutUsec
    ensures t.nsec % NSEC_PER_USEC == 0 && -NSEC_PER_SEC < t.nsec < NSEC_PER_SEC
    ensures timeoutUsec >= 0 ==> t.sec >= 0 && 0 <= t.nsec
    ensures timeoutUsec >= 0 ==> t.sec == timeoutUsec / USEC_PER_SEC
  {
    CDivRem(timeoutUsec, USEC_PER_SEC);
    Timespec(CDiv(timeoutUsec, USEC_PER_SEC), CRem(timeoutUsec, USEC_PER_SEC) * NSEC_PER_USEC)
  }

  /** The arguments of one `aio_suspend` call; `None` is the null timeout. */
  datatype SuspendRequest = SuspendRequest(list: seq<Aio>, nent: int, timeout: Option<Timespec>)

  /**
   * Static suspend(list, nent, timeout_usec): passes the list and count
   * through, and blocks without a time limit (null timeout) exactly when
   * the timeout is 0.
   */
  function SuspendList(list: seq<Aio>, nent: int, timeoutUsec: int): (req: SuspendRequest)
    ensures req.list == list && req.nent == nent
    ensures req.timeout == None <==> timeoutUsec == 0
    ensures req.timeout.Some? ==> req.timeout.value.sec * USEC_PER_SEC + req.timeout.value.nsec / NSEC_PER_USEC == timeoutUsec
  {
    if timeoutUsec == 0 then SuspendRequest(list, nent, None)
    else SuspendRequest(list, nent, Some(TimespecOf(timeoutUsec)))
  }

  /** An Aio object, standing for the control block it owns. */
  class Aio {
    var buf: nat
    var nbytes: int
    var offset: int
    var notify: int
    var signo: int
    var sigValue: int

    /** Aio(): the whole control block zeroed. */
    constructor ()
      ensures buf == 0 && nbytes == 0 && offset == 0
      ensures notify == 0 && signo == 0 && sigValue == 0
    {
      buf, nbytes, offset := 0, 0, 0;
      notify, signo, sigValue := 0, 0, 0;
    }

    /**
     * Aio(buf, nbytes, offset = 0): stores the transfer and turns
     * notification off; the signal number and value are left as they are
     * (uninitialised in the source).
     */
    constructor WithBuffer(buffer: nat, n: int, off: int)
      ensures buf == buffer && nbytes == n && offset == off
      ensures notify == SIGEV_NONE
    {
      buf, nbytes, offset := buffer, n, off;
      notify := SIGEV_NONE;
    }

    /**
     * Instance suspend(timeout_usec): a one-entry list holding exactly this
     * control block, with the static suspend's timeout.
     */
    function Suspend(timeoutUsec: int): (req: SuspendRequest)
      ensures req.list == [this] && req.nent == 1
      ensures req.timeout == None <==> timeoutUsec == 0
      ensures req.timeout.Some? ==> req.timeout.value == TimespecOf(timeoutUsec)
    {
      SuspendList([this], 1, timeoutUsec)
    }

    /** set_buf(buf, nbytes): the transfer's buffer and length, nothing else. */
    method SetBuf(buffer: nat, n: int)
      modifies this
      ensures buf == buffer && nbytes == n
      ensures offset == old(offset) && notify == old(notify)
      ensures signo == old(signo) && sigValue == old(sigValue)
    {
      buf, nbytes := buffer, n;
    }

    /** set_buf(Data &): the data object's buffer and its capacity. */
    method SetBufData(dataAddress: nat, dataCapacity: nat)
      modifies this
      ensures buf == dataAddress && nbytes == dataCapacity
      ensures offset == old(offset) && notify == old(notify)
      ensures signo == old(signo) && sigValue == old(sigValue)
    {
      SetBuf(dataAddress, dataCapacity);
    }

    /** set_offset(offset): the offset (or channel), nothing else. */
    method SetOffset(off: int)
      modifies this
      ensures offset == off
      ensures buf == old(buf) && nbytes == old(nbytes) && notify == old(notify)
      ensures signo == old(signo) && sigValue == old(sigValue)
    {
      offset := off;
    }

    /**
     * set_signal(number, value): a non-negative number asks for that signal
     * with that value on completion; a negative one turns notification off
     * and keeps the stored number and value.
     */
    method SetSignal(number: int, value: int)
      modifies this
      ensures number >= 0 ==> notify == SIGEV_SIGNAL && signo == number && sigValue == value
      ensures number < 0 ==> notify == SIGEV_NONE && signo == old(signo) && sigValue == old(sigValue)
      ensures buf == old(buf) && nbytes == old(nbytes) && offset == old(offset)
    {
      if number >= 0 {
        notify := SIGEV_SIGNAL;
        signo := number;
        sigValue := value;
      } else {
        notify := SIGEV_NONE;
      }
    }
  }
}
