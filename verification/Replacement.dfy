/** add_target gives an id to a new channel even if another channel has it. When
    that is harmless to the numbering of packets, exactly, and a run in which it
    loses a packet. */
module Replacement {
  import opened Bytes
  import opened Frames
  import opened LinkSpec
  import opened LinkInvariants
  import opened TransportSpec
  import opened Scheduling
  import opened SystemSpec
  import opened SystemInvariant
  import EndToEnd

  // ------------------------------------------------------------ continuations

  datatype Move = Move(side: Side, action: Action)

  /** The moves can be made one after the other from s. */
  ghost predicate CanPlay(s: System, moves: seq<Move>)
    decreases |moves|, 0
  {
    moves == [] ||
    var last := |moves| - 1;
    CanPlay(s, moves[..last]) && CanStep(Play(s, moves[..last]), moves[last].side, moves[last].action)
  }

  ghost function Play(s: System, moves: seq<Move>): System
    requires CanPlay(s, moves)
    decreases |moves|, 1
  {
    if moves == [] then s
    else
      var last := |moves| - 1;
      Step(Play(s, moves[..last]), moves[last].side, moves[last].action)
  }

  /** The endpoint `side` does not give the id c away again. */
  predicate Keeping(moves: seq<Move>, side: Side, c: u64) {
    Move(side, AtTransport(AddTarget(c))) !in moves
  }

  /** Every packet sent under the id c carries what was read at its number. */
  ghost predicate NumbersAgree(s: System, side: Side, c: u64) {
    forall p :: p in s.End(side).accepted && |p| >= TRANSPORT_HEADER && PacketId(p) == c != CLOSE_CHANNEL ==>
      InLog(Sent(s, side, c), p)
  }

  // -------------------------------------------------------- when it is harmless

  lemma TurnKeepsNumbering(e: Endpoint, turn: Turn, c: u64)
    requires CanTurn(e, turn) && c !in e.restarted && turn != AddTarget(c)
    ensures c !in AfterTurn(e, turn).restarted
  {
    hide EncodePacket, LogOf;
  }

  lemma DispatchKeepsNumbering(e: Endpoint, p: Payload)
    requires |p| >= TRANSPORT_HEADER
    ensures Dispatch(e, p).restarted == e.restarted
  {
    hide Place, PacketId, PacketSeq, PacketData;
  }

  lemma StepKeepsNumbering(s: System, who: Side, a: Action, side: Side, c: u64)
    requires CanStep(s, who, a) && c !in s.End(side).restarted && Move(who, a) != Move(side, AtTransport(AddTarget(c)))
    ensures c !in Step(s, who, a).End(side).restarted
  {
    hide Dispatch, Next, Payloads, SendAccepts, AfterTurn, CanTurn, CanAssign, Spread;
    match a {
      case Deliver(i, _) => DispatchKeepsNumbering(s.End(who), s.cables[i].At(who).link.waiting.value);
      case AtTransport(turn) =>
        if who == side {
          TurnKeepsNumbering(s.End(who), turn, c);
        }
      case _ =>
    }
  }

  lemma {:induction false} PlayKeepsNumbering(s: System, moves: seq<Move>, side: Side, c: u64)
    requires Inv(s) && c !in s.End(side).restarted && CanPlay(s, moves) && Keeping(moves, side, c)
    ensures Inv(Play(s, moves)) && c !in Play(s, moves).End(side).restarted
    decreases |moves|
  {
    hide Inv, CanStep, Step;
    if moves != [] {
      var last := |moves| - 1;
      var before := Play(s, moves[..last]);
      PlayKeepsNumbering(s, moves[..last], side, c);
      StepKeepsInv(before, moves[last].side, moves[last].action);
      StepKeepsNumbering(before, moves[last].side, moves[last].action, side, c);
    }
  }

  lemma IntactAgrees(s: System, side: Side, c: u64)
    requires Inv(s) && c !in s.End(side).restarted
    ensures NumbersAgree(s, side, c)
  {
    hide CustodyInv, CablesInv, OriginInv, ReceiverInv, Numbered, PacketId, PacketSeq, PacketData, LogOf;
    assert SideInv(s, side);
    assert forall p :: p in s.End(side).accepted ==> Genuine(s.End(side), p);
  }

  // --------------------------------------------------------- when it is harmful

  /** One more move, which does not give the id away. */
  lemma Further(s: System, moves: seq<Move>, m: Move, side: Side, c: u64) returns (longer: seq<Move>)
    requires CanPlay(s, moves) && Keeping(moves, side, c) && m != Move(side, AtTransport(AddTarget(c)))
    requires CanStep(Play(s, moves), m.side, m.action)
    ensures CanPlay(s, longer) && Keeping(longer, side, c)
    ensures Play(s, longer) == Step(Play(s, moves), m.side, m.action)
  {
    hide CanStep, Step;
    longer := moves + [m];
    assert longer[..|moves|] == moves;
  }

  /** The live links among the first n cables. */
  lemma {:induction false} LiveAmong(s: System, side: Side, n: nat) returns (live: seq<nat>)
    requires n <= |s.cables|
    ensures forall k :: 0 <= k < |live| ==> live[k] < n && HasUp(s, side, live[k])
    ensures forall i: nat :: i < n && HasUp(s, side, i) ==> i in live
    ensures forall a, b :: 0 <= a < b < |live| ==> live[a] != live[b]
    decreases n
  {
    live := [];
    if n > 0 {
      live := LiveAmong(s, side, n - 1);
      if HasUp(s, side, n - 1) {
        live := live + [n - 1];
      }
    }
  }

  /** A link without packets of its own can always ask for the queued ones. */
  lemma AssignmentExists(s: System, side: Side, asker: nat) returns (a: Action)
    requires !s.End(side).aborted && HasUp(s, side, asker) && s.cables[asker].At(side).own == [] && s.End(side).queue != []
    ensures a.Assign? && CanStep(s, side, a) && 0 < |a.choice| <= |s.End(side).queue|
    ensures Step(s, side, a).End(side) == s.End(side).(queue := s.End(side).queue[|a.choice|..])
  {
    hide Greedy, Spread;
    var live := LiveAmong(s, side, |s.cables|);
    assert asker in live;
    var mbps := seq(|live|, _ => MIN_MBPS);
    var q := s.End(side).queue;
    var choice :=
      GreedyExists(Views(s, side, live, mbps), Bases(s, side, live), q, |q| - DrainTo(|q|));
    assert CanAssign(s, side, asker, live, mbps, choice);
    a := Assign(asker, live, mbps, choice);
  }

  /** So the shared queue can always be emptied, by way of new links. */
  lemma {:induction false} RoomMade(s: System, moves: seq<Move>, side: Side, c: u64) returns (longer: seq<Move>)
    requires CanPlay(s, moves) && Keeping(moves, side, c) && !Play(s, moves).End(side).aborted
    ensures CanPlay(s, longer) && Keeping(longer, side, c)
    ensures Play(s, longer).End(side) == Play(s, moves).End(side).(queue := [])
    decreases |Play(s, moves).End(side).queue|
  {
    hide CanPlay, Play, Keeping, CanAssign, Spread;
    longer := moves;
    var t := Play(s, moves);
    if t.End(side).queue != [] {
      longer := LinkAdded(s, longer, side, c);
      var a := AssignmentExists(Play(s, longer), side, |t.cables|);
      longer := Further(s, longer, Move(side, a), side, c);
      longer := RoomMade(s, longer, side, c);
    }
  }

  lemma LinkAdded(s: System, moves: seq<Move>, side: Side, c: u64) returns (longer: seq<Move>)
    requires CanPlay(s, moves) && Keeping(moves, side, c) && !Play(s, moves).End(side).aborted
    ensures CanPlay(s, longer) && Keeping(longer, side, c)
    ensures var t, u := Play(s, moves), Play(s, longer);
            && u.End(side) == t.End(side) && HasUp(u, side, |t.cables|) && u.cables[|t.cables|].At(side).own == []
  {
    hide CanPlay, Play, Keeping;
    var n := |Play(s, moves).cables|;
    longer := Further(s, moves, Move(side, NewCable), side, c);
    longer := Further(s, longer, Move(side, AddLink(n)), side, c);
  }

  lemma Nothing(s: System, side: Side, c: u64) returns (moves: seq<Move>)
    ensures CanPlay(s, moves) && Keeping(moves, side, c) && Play(s, moves) == s
  {
    moves := [];
  }

  /** A turn of Transport, as a further move. */
  lemma TurnTaken(s: System, moves: seq<Move>, turn: Turn, side: Side, c: u64) returns (longer: seq<Move>)
    requires CanPlay(s, moves) && Keeping(moves, side, c) && turn != AddTarget(c)
    requires !Play(s, moves).End(side).aborted && CanTurn(Play(s, moves).End(side), turn)
    ensures CanPlay(s, longer) && Keeping(longer, side, c)
    ensures Play(s, longer).End(side) == AfterTurn(Play(s, moves).End(side), turn)
  {
    hide CanPlay, Play, Keeping, CanTurn, AfterTurn;
    longer := Further(s, moves, Move(side, AtTransport(turn)), side, c);
  }

  /** The new channel can always come to read. */
  lemma ReadyToRead(s: System, side: Side, c: u64) returns (moves: seq<Move>)
    requires var e := s.End(side); !e.aborted && c in e.children && e.children[c] == FreshChild
    ensures CanPlay(s, moves) && Keeping(moves, side, c)
    ensures var e := s.End(side);
            Play(s, moves).End(side) == e.(queue := [], children := e.children[c := FreshChild.(target := Open)])
  {
    hide CanPlay, Play, Keeping;
    moves := Nothing(s, side, c);
    moves := RoomMade(s, moves, side, c);
    moves := TurnTaken(s, moves, OpenTarget(c), side, c);
  }

  lemma Disagrees(s: System, side: Side, c: u64, data: Payload)
    requires c != CLOSE_CHANNEL && EncodePacket(c, 0, data) in s.End(side).accepted
    requires Sent(s, side, c) != [] && Sent(s, side, c)[0] != data
    ensures !NumbersAgree(s, side, c)
  {
    hide PacketId, PacketSeq, PacketData, LogOf;
    PacketRoundTrip(c, 0, data);
  }

  /** Numbers start again although some were used. */
  lemma UsedNumbers(s: System, side: Side, c: u64) returns (moves: seq<Move>)
    requires var e := s.End(side); !e.aborted && c in e.children && e.children[c] == FreshChild
    requires c != CLOSE_CHANNEL && Sent(s, side, c) != []
    ensures CanPlay(s, moves) && Keeping(moves, side, c) && !NumbersAgree(Play(s, moves), side, c)
  {
    hide CanPlay, Play, Keeping, EncodePacket, NumbersAgree;
    moves := ReadyToRead(s, side, c);
    var data := if Sent(s, side, c)[0] == [] then [0] else [];
    moves := TurnTaken(s, moves, ReadFrom(c, data), side, c);
    Disagrees(Play(s, moves), side, c, data);
  }

  /** The replaced channel comes to read after all. */
  lemma OldTargetOpens(s: System, side: Side, c: u64, k: nat) returns (moves: seq<Move>)
    requires var e := s.End(side); !e.aborted && c in e.children && e.children[c] == FreshChild
    requires var e := s.End(side); k < |e.orphans| && e.orphans[k].id == c && !e.orphans[k].child.target.Closed?
    ensures CanPlay(s, moves) && Keeping(moves, side, c)
    ensures var e, f := s.End(side), Play(s, moves).End(side);
            && !f.aborted && f.queue == [] && f.log == e.log && k < |f.orphans|
            && c in f.children && f.children[c] == FreshChild.(target := Open)
            && f.orphans[k] == e.orphans[k].(child := e.orphans[k].child.(target := Open))
  {
    hide CanPlay, Play, Keeping;
    moves := ReadyToRead(s, side, c);
    if s.End(side).orphans[k].child.target.Pending? {
      moves := TurnTaken(s, moves, OpenOrphan(k), side, c);
    }
  }

  /** Two channels use the same numbers. */
  lemma SharedNumbers(s: System, side: Side, c: u64, k: nat) returns (moves: seq<Move>)
    requires var e := s.End(side); !e.aborted && c in e.children && e.children[c] == FreshChild
    requires var e := s.End(side); k < |e.orphans| && e.orphans[k].id == c && !e.orphans[k].child.target.Closed?
    requires s.End(side).orphans[k].child.lastSent == 0 && c != CLOSE_CHANNEL && Sent(s, side, c) == []
    ensures CanPlay(s, moves) && Keeping(moves, side, c) && !NumbersAgree(Play(s, moves), side, c)
  {
    hide CanPlay, Play, Keeping, EncodePacket, NumbersAgree;
    moves := OldTargetOpens(s, side, c, k);
    moves := TurnTaken(s, moves, ReadOrphan(k, []), side, c);
    moves := TurnTaken(s, moves, ReadFrom(c, [0]), side, c);
    Disagrees(Play(s, moves), side, c, [0]);
  }

  // ----------------------------------------------------------------- the result

  /** The channel that has the id, if any, has sent nothing and cannot send. */
  predicate FreeToTake(e: Endpoint, c: u64) {
    c !in e.children || c == CLOSE_CHANNEL || Silent(e.children[c])
  }

  ghost function Given(s: System, side: Side, c: u64): System
    requires !s.End(side).aborted
  {
    Step(s, side, AtTransport(AddTarget(c)))
  }

  lemma HarmlessIf(s: System, side: Side, c: u64, moves: seq<Move>)
    requires Inv(s) && !s.End(side).aborted && c !in s.End(side).restarted && FreeToTake(s.End(side), c)
    requires CanPlay(Given(s, side, c), moves) && Keeping(moves, side, c)
    ensures NumbersAgree(Play(Given(s, side, c), moves), side, c)
  {
    hide Inv, CanPlay, Play, Keeping;
    if c != CLOSE_CHANNEL {
      var t := Given(s, side, c);
      StepKeepsInv(s, side, AtTransport(AddTarget(c)));
      PlayKeepsNumbering(t, moves, side, c);
      IntactAgrees(Play(t, moves), side, c);
    }
  }

  lemma HarmfulIf(s: System, side: Side, c: u64) returns (moves: seq<Move>)
    requires Inv(s) && !s.End(side).aborted && c !in s.End(side).restarted && !FreeToTake(s.End(side), c)
    ensures var t := Given(s, side, c);
            CanPlay(t, moves) && Keeping(moves, side, c) && !NumbersAgree(Play(t, moves), side, c)
  {
    hide CustodyInv, CablesInv, OriginInv, ReceiverInv, Genuine, CanPlay, Play, Keeping, NumbersAgree, EncodePacket;
    var t := Given(s, side, c);
    assert SideInv(s, side);
    assert Numbered(s.End(side), c);
    assert Sent(t, side, c) == Sent(s, side, c);
    if Sent(s, side, c) != [] {
      moves := UsedNumbers(t, side, c);
    } else {
      moves := SharedNumbers(t, side, c, |s.End(side).orphans|);
    }
  }

  /** In any state a run reaches, with the numbering of channel c in order: giving its
      id to a new channel leaves it in order, whatever happens afterwards short of
      giving it away again, if and only if the id was free or reserved, or its
      channel had sent nothing and had lost its target. */
  lemma ReplacingIsHarmless(states: seq<System>, s: System, side: Side, c: u64)
    requires Run(states) && states != [] && s == states[|states| - 1]
    requires !s.End(side).aborted && c !in s.End(side).restarted
    ensures var t := Given(s, side, c);
            (forall moves :: CanPlay(t, moves) && Keeping(moves, side, c) ==> NumbersAgree(Play(t, moves), side, c))
            <==> FreeToTake(s.End(side), c)
  {
    hide Run, Inv, CanPlay, Play, Keeping, NumbersAgree, FreeToTake;
    EndToEnd.RunInv(states, |states| - 1);
    var t := Given(s, side, c);
    if FreeToTake(s.End(side), c) {
      forall moves | CanPlay(t, moves) && Keeping(moves, side, c)
        ensures NumbersAgree(Play(t, moves), side, c)
      {
        HarmlessIf(s, side, c, moves);
      }
    } else {
      var moves := HarmfulIf(s, side, c);
    }
  }

  /** And delivery stays in order, at the peer, as long as it is. */
  lemma ReplacingKeepsOrder(states: seq<System>, s: System, side: Side, c: u64, moves: seq<Move>)
    requires Run(states) && states != [] && s == states[|states| - 1]
    requires var e := s.End(side);
             !e.aborted && c !in e.restarted && (c in e.children ==> Silent(e.children[c]))
    requires CanPlay(Given(s, side, c), moves) && Keeping(moves, side, c)
    ensures var t := Play(Given(s, side, c), moves); Delivered(t, Other(side), c) <= Sent(t, side, c)
  {
    hide Run, Inv, CanPlay, Play, Keeping, Delivered, Sent;
    EndToEnd.RunInv(states, |states| - 1);
    StepKeepsInv(s, side, AtTransport(AddTarget(c)));
    PlayKeepsNumbering(Given(s, side, c), moves, side, c);
    EndToEnd.DeliveredPrefix(Play(Given(s, side, c), moves), Other(side), c);
  }

  // --------------------------------------------------------- the receiving side

  /** A channel has exactly the packets that came in under its id. */
  ghost predicate SlotsAgree(s: System, side: Side, c: u64) {
    forall n: nat :: HasNumber(s.End(side), c, n) <==> CameIn(s.cables, side, c, n)
  }

  lemma TurnKeepsReceived(e: Endpoint, turn: Turn, c: u64)
    requires CanTurn(e, turn) && c !in e.forgotten && turn != AddTarget(c)
    ensures c !in AfterTurn(e, turn).forgotten
  {
    hide EncodePacket, LogOf;
  }

  lemma DispatchKeepsReceived(e: Endpoint, p: Payload)
    requires |p| >= TRANSPORT_HEADER
    ensures Dispatch(e, p).forgotten == e.forgotten
  {
    hide Place, PacketId, PacketSeq, PacketData;
  }

  lemma StepKeepsReceived(s: System, who: Side, a: Action, side: Side, c: u64)
    requires CanStep(s, who, a) && c !in s.End(side).forgotten && Move(who, a) != Move(side, AtTransport(AddTarget(c)))
    ensures c !in Step(s, who, a).End(side).forgotten
  {
    hide Dispatch, Next, Payloads, SendAccepts, AfterTurn, CanTurn, CanAssign, Spread;
    match a {
      case Deliver(i, _) => DispatchKeepsReceived(s.End(who), s.cables[i].At(who).link.waiting.value);
      case AtTransport(turn) =>
        if who == side {
          TurnKeepsReceived(s.End(who), turn, c);
        }
      case _ =>
    }
  }

  lemma {:induction false} PlayKeepsReceived(s: System, moves: seq<Move>, side: Side, c: u64)
    requires Inv(s) && c !in s.End(side).forgotten && CanPlay(s, moves) && Keeping(moves, side, c)
    ensures Inv(Play(s, moves)) && c !in Play(s, moves).End(side).forgotten
    decreases |moves|
  {
    hide Inv, CanStep, Step;
    if moves != [] {
      var last := |moves| - 1;
      var before := Play(s, moves[..last]);
      PlayKeepsReceived(s, moves[..last], side, c);
      StepKeepsInv(before, moves[last].side, moves[last].action);
      StepKeepsReceived(before, moves[last].side, moves[last].action, side, c);
    }
  }

  /** The channel that has the id, if any, has received nothing. */
  predicate NothingToForget(e: Endpoint, c: u64) {
    c in e.children ==> Blank(e.children[c])
  }

  lemma ForgetsAtOnce(s: System, side: Side, c: u64)
    requires Inv(s) && !s.End(side).aborted && !NothingToForget(s.End(side), c)
    ensures !SlotsAgree(Given(s, side, c), side, c)
  {
    hide CustodyInv, CablesInv, SenderInv, CameIn;
    var e, t := s.End(side), Given(s, side, c);
    var ch := e.children[c];
    assert SideInv(s, side);
    assert Agrees(ch, Expected(s.End(Other(side)), c));
    var n := if ch.forwarded != [] then 0 else |ch.buffer| - 1;
    assert HasNumber(e, c, n) && !HasNumber(t.End(side), c, n);
    assert CameIn(t.cables, side, c, n);
  }

  /** In any state a run reaches, with nothing received on channel c forgotten yet:
      after giving its id to a new channel, that channel has exactly the packets that
      have come in under the id, in every continuation short of an abort or of giving
      it away again, if and only if the old channel, if any, had received nothing. */
  lemma ReplacingForgetsNothing(states: seq<System>, s: System, side: Side, c: u64)
    requires Run(states) && states != [] && s == states[|states| - 1] && c != CLOSE_CHANNEL
    requires !s.End(side).aborted && c !in s.End(side).forgotten
    ensures var t := Given(s, side, c);
            (forall moves :: CanPlay(t, moves) && Keeping(moves, side, c) && !Play(t, moves).End(side).aborted ==>
               SlotsAgree(Play(t, moves), side, c))
            <==> NothingToForget(s.End(side), c)
  {
    hide Run, Inv, CanPlay, Play, Keeping, SlotsAgree;
    EndToEnd.RunInv(states, |states| - 1);
    var t := Given(s, side, c);
    StepKeepsInv(s, side, AtTransport(AddTarget(c)));
    if NothingToForget(s.End(side), c) {
      forall moves | CanPlay(t, moves) && Keeping(moves, side, c) && !Play(t, moves).End(side).aborted
        ensures SlotsAgree(Play(t, moves), side, c)
      {
        PlayKeepsReceived(t, moves, side, c);
        AllSlotsAgree(Play(t, moves), side, c);
      }
    } else {
      var none := Nothing(t, side, c);
      ForgetsAtOnce(s, side, c);
    }
  }

  lemma AllSlotsAgree(s: System, side: Side, c: u64)
    requires Inv(s) && !s.End(side).aborted && c !in s.End(side).forgotten && c != CLOSE_CHANNEL
    ensures SlotsAgree(s, side, c)
  {
    hide Inv, HasNumber, CameIn;
    forall n: nat
      ensures HasNumber(s.End(side), c, n) <==> CameIn(s.cables, side, c, n)
    {
      EndToEnd.FilledIff(s, side, c, n);
    }
  }

  /** And then the channel becomes complete: whenever the peer, which has not given the
      id away either, has nothing left to send. */
  lemma ReplacingKeepsComplete(states: seq<System>, s: System, side: Side, c: u64, moves: seq<Move>)
    requires Run(states) && states != [] && s == states[|states| - 1] && c != CLOSE_CHANNEL
    requires !s.End(side).aborted && Intact(s, Other(side), c) && NothingToForget(s.End(side), c)
    requires CanPlay(Given(s, side, c), moves) && Keeping(moves, side, c) && Keeping(moves, Other(side), c)
    ensures var t := Play(Given(s, side, c), moves);
            !t.End(side).aborted && EndToEnd.Quiescent(t, Other(side)) && Sent(t, Other(side), c) != [] ==>
              EndToEnd.Complete(t.End(side), c, Sent(t, Other(side), c))
  {
    hide Run, Inv, CanPlay, Play, Keeping, EndToEnd.Quiescent, EndToEnd.Complete, Sent;
    EndToEnd.RunInv(states, |states| - 1);
    var start := Given(s, side, c);
    var t := Play(start, moves);
    StepKeepsInv(s, side, AtTransport(AddTarget(c)));
    PlayKeepsReceived(start, moves, side, c);
    PlayKeepsNumbering(start, moves, Other(side), c);
    if !t.End(side).aborted && EndToEnd.Quiescent(t, Other(side)) && Sent(t, Other(side), c) != [] {
      EndToEnd.QuiescentComplete(t, Other(side), c);
    }
  }
}
