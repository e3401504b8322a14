/**
  The "agent has flushed" signal: a channel that a flush request closes and that is
  replaced at the end of each invocation (handleIntakeV2Events in apmproxy/receiver.go,
  ResetFlush and WaitForFlush in apmproxy/apmserver.go). Each method is one critical
  section of the flush mutex, so any interleaving is a sequence of calls.
 */
module FlushSignals {

  /** A Go channel that is only ever closed; closing it twice would panic. */
  class Channel {
    var closed: bool

    constructor ()
      ensures !closed
    {
      closed := false;
    }

    method Close()
      requires !closed
      modifies this
      ensures closed
    {
      closed := true;
    }
  }

  datatype Event = Requested | WasReset

  function Resets(history: seq<Event>): nat {
    if history == [] then 0
    else Resets(history[..|history| - 1]) + if history[|history| - 1] == WasReset then 1 else 0
  }

  /** A flush request came when exactly `g` resets had. */
  ghost predicate RequestedDuring(history: seq<Event>, g: nat) {
    exists i :: 0 <= i < |history| && history[i] == Requested && Resets(history[..i]) == g
  }

  /** The numbers of resets at which requests came. */
  function Requests(history: seq<Event>): set<nat> {
    if history == [] then
      {}
    else
      var init := history[..|history| - 1];
      Requests(init) + if history[|history| - 1] == Requested then {Resets(init)} else {}
  }

  lemma HistorySnoc(history: seq<Event>, e: Event)
    ensures Resets(history + [e]) == Resets(history) + if e == WasReset then 1 else 0
    ensures Requests(history + [e]) == Requests(history) + if e == Requested then {Resets(history)} else {}
  {
    assert (history + [e])[..|history|] == history;
  }

  lemma {:induction false} RequestsAre(history: seq<Event>, g: nat)
    ensures g in Requests(history) <==> RequestedDuring(history, g)
  {
    if history != [] {
      var init, last := history[..|history| - 1], history[|history| - 1];
      RequestsAre(init, g);
      assert forall i | 0 <= i < |init| :: history[i] == init[i] && history[..i] == init[..i];
      if g in Requests(init) {
        var i :| 0 <= i < |init| && init[i] == Requested && Resets(init[..i]) == g;
        assert history[i] == Requested;
      }
    }
  }

  /** Requests are only for channels that have been current. */
  lemma {:induction false} NoRequestAhead(history: seq<Event>)
    ensures forall g | g in Requests(history) :: g <= Resets(history)
  {
    if history != [] {
      NoRequestAhead(history[..|history| - 1]);
    }
  }

  class FlushSignal {
    var flushCh: Channel

    // Everything that has happened, and the channel that was current after each number of resets.
    ghost var history: seq<Event>
    ghost var channels: seq<Channel>

    /** A channel is closed exactly if a flush request was handled while it was current. */
    ghost predicate Valid()
      reads this, channels
    {
      && |channels| == Resets(history) + 1
      && flushCh == channels[|channels| - 1]
      && (forall i, j | 0 <= i < j < |channels| :: channels[i] != channels[j])
      && (forall g | 0 <= g < |channels| :: channels[g].closed <==> g in Requests(history))
    }

    constructor ()
      ensures Valid() && fresh(channels) && history == []
    {
      var ch := new Channel();
      flushCh := ch;
      history, channels := [], [ch];
    }

    /** `flushed=true` in an intake request; a channel that is closed already is left alone. */
    method HandleFlushRequest()
      requires Valid()
      modifies this`history, flushCh
      ensures Valid() && history == old(history) + [Requested] && channels == old(channels)
      ensures flushCh.closed
    {
      HistorySnoc(history, Requested);
      if !flushCh.closed {
        flushCh.Close();
      }
      history := history + [Requested];
    }

    method ResetFlush()
      requires Valid()
      modifies this
      ensures Valid() && history == old(history) + [WasReset]
      ensures fresh(flushCh) && channels == old(channels) + [flushCh] && !flushCh.closed
    {
      HistorySnoc(history, WasReset);
      NoRequestAhead(history);
      ghost var n := |channels|;
      var ch := new Channel();
      flushCh := ch;
      history, channels := history + [WasReset], channels + [ch];
      assert forall g | 0 <= g < n :: channels[g] == old(channels)[g] && channels[g] != ch;
      assert channels[n] == ch && n !in Requests(history);
    }

    /** The channel to wait on; it is closed already if the request came first. */
    method WaitForFlush() returns (ch: Channel)
      requires Valid()
      ensures ch == channels[Resets(history)]
      ensures ch.closed <==> RequestedDuring(history, Resets(history))
    {
      RequestsAre(history, Resets(history));
      ch := flushCh;
    }
  }
}
