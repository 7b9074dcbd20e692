/**
 * The serial-line router of the tank service.  Each line read from the
 * serial port is stripped and tested against the prefixes `TANK0:` …
 * `TANK3:` in order; the first prefix that matches sends the rest of the
 * line to that channel's queue.  Lines that match no prefix are dropped.
 */
module TankRouter {
  import opened Wrappers
  import opened PyText
  import opened TankSettings

  /** `f'TANK{i}:'`. */
  function Prefix(i: nat): (p: string)
    requires i < 10
    ensures |p| == 6
  {
    "TANK" + [DigitChar(i)] + ":"
  }

  /** Two different channel prefixes never both begin one line. */
  lemma PrefixesExclusive(line: string, i: nat, j: nat)
    requires i < 10 && j < 10 && i != j
    ensures StartsWith(line, Prefix(i)) ==> !StartsWith(line, Prefix(j))
  {
    if StartsWith(line, Prefix(i)) {
      assert line[4] == line[..6][4] == DigitChar(i);
      assert Prefix(j)[4] == DigitChar(j);
    }
  }

  /** The prefix scan starting at channel `i`. */
  function RouteFrom(line: string, i: nat): (r: Option<(nat, string)>)
    requires i <= TankCount
    ensures r.Some? ==> i <= r.value.0 < TankCount && line == Prefix(r.value.0) + r.value.1
    ensures r.None? <==> forall j :: i <= j < TankCount ==> !StartsWith(line, Prefix(j))
    decreases TankCount - i
  {
    if i == TankCount then None
    else if StartsWith(line, Prefix(i)) then Some((i, line[|Prefix(i)|..]))
    else RouteFrom(line, i + 1)
  }

  /** Where a stripped line goes: the channel whose prefix it starts with, and the payload after it. */
  function Route(line: string): Option<(nat, string)>
  {
    RouteFrom(line, 0)
  }

  /** A line is routed to channel i with payload `rest` exactly when it is `Prefix(i) + rest`. */
  lemma RouteCharacterized(line: string, i: nat, rest: string)
    ensures Route(line) == Some((i, rest)) <==> i < TankCount && line == Prefix(i) + rest
  {
    if i < TankCount && line == Prefix(i) + rest {
      assert StartsWith(line, Prefix(i)) by {
        assert line[..|Prefix(i)|] == Prefix(i);
      }
      var r := Route(line);
      assert r.Some?;
      if r.value.0 != i {
        assert StartsWith(line, Prefix(r.value.0)) by {
          assert line[..|Prefix(r.value.0)|] == Prefix(r.value.0);
        }
        PrefixesExclusive(line, i, r.value.0);
      }
      assert line[|Prefix(i)|..] == rest;
    }
  }

  /** The queues after one raw line has been read: only the routed channel's queue grows. */
  function Deliver(queues: seq<seq<string>>, raw: string): (r: seq<seq<string>>)
    requires |queues| == TankCount
    ensures |r| == TankCount
  {
    match Route(Strip(raw))
    case Some((i, rest)) => queues[i := queues[i] + [rest]]
    case None => queues
  }

  /** At most one queue receives a line, it receives the payload at its end, and an unmatched line changes nothing. */
  lemma DeliverOnlyRouted(queues: seq<seq<string>>, raw: string, j: nat)
    requires |queues| == TankCount && j < TankCount
    ensures Route(Strip(raw)).None? ==> Deliver(queues, raw) == queues
    ensures Route(Strip(raw)).Some? && Route(Strip(raw)).value.0 == j ==>
              Deliver(queues, raw)[j] == queues[j] + [Route(Strip(raw)).value.1]
    ensures (Route(Strip(raw)).None? || Route(Strip(raw)).value.0 != j) ==> Deliver(queues, raw)[j] == queues[j]
  {
  }

  /** The queues after a sequence of raw lines has been read, in order. */
  function DeliverAll(queues: seq<seq<string>>, lines: seq<string>): (r: seq<seq<string>>)
    requires |queues| == TankCount
    ensures |r| == TankCount
  {
    if lines == [] then queues
    else Deliver(DeliverAll(queues, lines[..|lines| - 1]), lines[|lines| - 1])
  }

  /** The payloads, in arrival order, of the lines among `lines` that are routed to channel j. */
  function Inbound(lines: seq<string>, j: nat): seq<string>
  {
    if lines == [] then []
    else
      var last := lines[|lines| - 1];
      Inbound(lines[..|lines| - 1], j) +
        match Route(Strip(last))
        case Some((i, rest)) => if i == j then [rest] else []
        case None => []
  }

  /** Each queue receives exactly its own payloads, in the order the lines arrived. */
  lemma {:induction false} DeliverAllInOrder(queues: seq<seq<string>>, lines: seq<string>, j: nat)
    requires |queues| == TankCount && j < TankCount
    ensures DeliverAll(queues, lines)[j] == queues[j] + Inbound(lines, j)
  {
    if lines != [] {
      var init := lines[..|lines| - 1];
      DeliverAllInOrder(queues, init, j);
      DeliverOnlyRouted(DeliverAll(queues, init), lines[|lines| - 1], j);
    }
  }

  lemma DeliverAllStep(queues: seq<seq<string>>, lines: seq<string>, n: nat)
    requires |queues| == TankCount && n < |lines|
    ensures DeliverAll(queues, lines[..n + 1]) == Deliver(DeliverAll(queues, lines[..n]), lines[n])
  {
    assert lines[..n + 1][..n] == lines[..n];
  }

  /** The routing loop's state: the four per-channel queues. */
  class Router {
    var queues: seq<seq<string>>

    constructor()
      ensures queues == [[], [], [], []]
    {
      queues := [[], [], [], []];
    }

    /** One line read from the serial port. */
    method Dispatch(raw: string)
      requires |queues| == TankCount
      modifies this
      ensures queues == Deliver(old(queues), raw)
    {
      var line := Strip(raw);
      for i := 0 to TankCount
        invariant queues == old(queues)
        invariant RouteFrom(line, 0) == RouteFrom(line, i)
      {
        var prefix := Prefix(i);
        if StartsWith(line, prefix) {
          var value := line[|prefix|..];
          queues := queues[i := queues[i] + [value]];
          break;
        }
      }
    }

    /** The lines read from the serial port, one after the other. */
    method Pump(lines: seq<string>)
      requires |queues| == TankCount
      modifies this
      ensures queues == DeliverAll(old(queues), lines)
    {
      ghost var start := queues;
      var n := 0;
      while n < |lines|
        invariant 0 <= n <= |lines|
        invariant |queues| == TankCount
        invariant queues == DeliverAll(start, lines[..n])
      {
        DeliverAllStep(start, lines, n);
        Dispatch(lines[n]);
        n := n + 1;
      }
      assert lines[..n] == lines;
    }
  }
}
