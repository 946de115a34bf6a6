/**
 * The bookkeeping every stream owner in the dashboards does by hand: which
 * websocket it holds, which sockets it ever opened (and on which stream
 * path), and which it asked to close; and, for the chart, the Tk `after`
 * job of its countdown. Both are values here, and each owner's methods move
 * them along with the transitions below.
 */
module Lifecycle {
  import opened Wrappers

  type Handle = nat
  type Job = nat

  /**
   * `held` is the owner's `ws` field; `next` is the handle the next socket
   * gets; `streams` maps every socket opened so far to its stream path;
   * `closed` holds the sockets `close` was called on.
   */
  datatype Link = Link(held: Option<Handle>, next: nat, streams: map<Handle, string>, closed: set<Handle>)

  /** An owner before its first socket. */
  const NoLink := Link(None, 0, map[], {})

  /** Sockets opened and never asked to close. */
  function Live(l: Link): set<Handle>
  {
    l.streams.Keys - l.closed
  }

  /** Handles are fresh, `ws` names a socket that was opened, and no socket but the held one is still live. */
  predicate LinkOk(l: Link)
  {
    && (forall h :: h in l.streams ==> h < l.next)
    && (l.held.Some? ==> l.held.value in l.streams)
    && l.closed <= l.streams.Keys
    && Live(l) <= Held(l.held)
  }

  /** Open a socket on `topic` and hold it; the previous reference, if any, is overwritten. */
  function Open(l: Link, topic: string): (r: Link)
    ensures r.held == Some(l.next) && r.next == l.next + 1
    ensures r.streams.Keys == l.streams.Keys + {l.next} && r.streams[l.next] == topic
    ensures forall h :: h in l.streams && h != l.next ==> r.streams[h] == l.streams[h]
    ensures LinkOk(l) && Live(l) == {} ==> LinkOk(r) && Live(r) == {l.next}
  {
    Link(Some(l.next), l.next + 1, l.streams[l.next := topic], l.closed)
  }

  /** `ws.close()` on the held socket, if any, keeping the reference (a failing close is swallowed). */
  function Close(l: Link): (r: Link)
    ensures r.held == l.held && r.next == l.next && r.streams == l.streams
    ensures l.held.Some? ==> l.held.value in r.closed
    ensures LinkOk(l) ==> LinkOk(r) && Live(r) == {}
  {
    Link(l.held, l.next, l.streams, l.closed + Held(l.held))
  }

  /** `stop_ws`: close the held socket, if any, and forget it. */
  function Release(l: Link): (r: Link)
    ensures r.held == None && r.next == l.next && r.streams == l.streams
    ensures l.held.Some? ==> l.held.value in r.closed
    ensures LinkOk(l) ==> LinkOk(r) && Live(r) == {}
  {
    Close(l).(held := None)
  }

  /** `start_ws`: release the previous socket, then open and hold a new one. */
  function Reopen(l: Link, topic: string): (r: Link)
    ensures r.held == Some(l.next) && r.next == l.next + 1
    ensures l.next in r.streams && r.streams[l.next] == topic
    ensures l.held.Some? ==> l.held.value in r.closed
    ensures LinkOk(l) ==> LinkOk(r) && Live(r) == {l.next}
  {
    Open(Release(l), topic)
  }

  /** A second `stop_ws` closes nothing more. */
  lemma ReleaseIdempotent(l: Link)
    ensures Release(Release(l)) == Release(l)
  {
  }

  /** A second `close` on the same reference changes nothing either. */
  lemma CloseIdempotent(l: Link)
    ensures Close(Close(l)) == Close(l)
  {
  }

  /** A close issued while no socket is held closes nothing, so a socket opened afterwards stays live. */
  lemma CloseBeforeOpenLeaks(l: Link, topic: string)
    requires LinkOk(l) && l.held == None
    ensures Close(l) == l
    ensures Live(Open(Close(l), topic)) == {l.next}
  {
  }

  /**
   * Every socket but the newest is closed once `start_ws` has run: however
   * long the history, restarting leaves exactly one live socket, on the path
   * just given.
   */
  lemma ReopenLeavesOne(l: Link, topic: string, h: Handle)
    requires LinkOk(l) && h in Reopen(l, topic).streams
    ensures h in Live(Reopen(l, topic)) <==> h == l.next
  {
  }

  /**
   * `recorded` is the owner's `_countdown_job`; `next` is the id the next
   * `after` call returns; `pending` holds the ticks scheduled and neither run
   * nor cancelled.
   */
  datatype Timer = Timer(recorded: Option<Job>, next: nat, pending: set<Job>)

  const NoTimer := Timer(None, 0, {})

  /** Ids are fresh, and the only tick that can still run is the recorded one. */
  predicate TimerOk(t: Timer)
  {
    && (forall j :: j in t.pending ==> j < t.next)
    && t.pending <= Held(t.recorded)
  }

  /** `self._countdown_job = self.after(1000, ...)`. */
  function Schedule(t: Timer): (r: Timer)
    ensures r.recorded == Some(t.next) && r.next == t.next + 1
    ensures r.pending == t.pending + {t.next}
    ensures TimerOk(t) && t.pending == {} ==> TimerOk(r) && r.pending == {t.next}
  {
    Timer(Some(t.next), t.next + 1, t.pending + {t.next})
  }

  /** `after_cancel` of the recorded job, when there is one; the field itself keeps the stale id. */
  function Cancel(t: Timer): (r: Timer)
    ensures r.recorded == t.recorded && r.next == t.next
    ensures r.pending == t.pending - Held(t.recorded)
    ensures TimerOk(t) ==> TimerOk(r) && r.pending == {}
  {
    Timer(t.recorded, t.next, t.pending - Held(t.recorded))
  }

  /** Tk runs tick `j`: it is no longer pending. */
  function Fire(t: Timer, j: Job): (r: Timer)
    ensures r.recorded == t.recorded && r.next == t.next
    ensures j !in r.pending && r.pending <= t.pending
    ensures TimerOk(t) ==> TimerOk(r)
  {
    Timer(t.recorded, t.next, t.pending - {j})
  }

  /** A tick that Tk can run is always the one the owner recorded, so cancelling the recorded job stops the countdown. */
  lemma FiredIsRecorded(t: Timer, j: Job)
    requires TimerOk(t) && j in t.pending
    ensures t.recorded == Some(j)
    ensures Fire(t, j).pending == {}
  {
  }
}
