/**
 The receive loop both fixture responders share, apart from what a packet means. A delivery
 says what one receive on the port brought: nothing yet, a failure, a packet the responder
 does not answer, or a request together with the packets owed to it.
 */
module ResponderLoop {

  datatype Outcome = Rejected | Cancelled | PortFailed | LibraryFailed | StillWaiting

  /** The library answer behind a request: packets to submit, or the error the responder returns. */
  datatype Answer<T> = Packets(packets: seq<T>) | NoAnswer(error: Outcome)

  datatype Delivery<T> =
    | Busy(cancelled: bool)
    | Fails
    | Other(acknowledged: bool)
    | Asked(answer: Answer<T>, acknowledged: bool, accepts: nat)

  datatype Play<T> = Play(sent: seq<T>, outcome: Outcome)

  /** What one delivery makes a responder submit, and whether it returns or goes on. */
  datatype Move<T> = Returns(sent: seq<T>, outcome: Outcome) | GoesOn(sent: seq<T>, observed: nat, matched: bool)

  function Moves<T>(d: Delivery<T>, matched: bool): Move<T> {
    match d
    case Busy(cancelled) => if cancelled then Returns([], Cancelled) else GoesOn([], 0, matched)
    case Fails => Returns([], PortFailed)
    case Other(acknowledged) => if acknowledged then GoesOn([], 1, matched) else Returns([], PortFailed)
    case Asked(answer, acknowledged, accepts) =>
      if !acknowledged then Returns([], PortFailed)
      else if matched then Returns([], Rejected)
      else if answer.NoAnswer? then Returns([], answer.error)
      else if accepts < |answer.packets| then Returns(answer.packets[..accepts], PortFailed)
      else GoesOn(answer.packets, 1, true)
  }

  /** The deliveries played to their end: what is submitted, and how the responder returns. */
  function Plays<T>(ds: seq<Delivery<T>>, budget: nat, matched: bool): Play<T> {
    if budget == 0 then Play([], Rejected)
    else if ds == [] then Play([], StillWaiting)
    else
      match Moves(ds[0], matched)
      case Returns(sent, outcome) => Play(sent, outcome)
      case GoesOn(sent, observed, matched') =>
        var rest := Plays(ds[1..], if observed <= budget then budget - observed else 0, matched');
        Play(sent + rest.sent, rest.outcome)
  }

  /** A loop's place in a play: what it has submitted and what is still to come make up the whole. */
  ghost predicate Goes<T>(whole: Play<T>, ds: seq<Delivery<T>>, at: nat, budget: nat, matched: bool, sent: seq<T>)
    requires at <= |ds|
  {
    var rest := Plays(ds[at..], budget, matched);
    whole == Play(sent + rest.sent, rest.outcome) && (!matched ==> sent == [])
  }

  ghost predicate GoesBy<T>(whole: Play<T>, ds: seq<Delivery<T>>, at: nat, budget: nat, move: Move<T>, sent: seq<T>)
    requires at < |ds|
  {
    match move
    case Returns(more, outcome) => whole == Play(sent + more, outcome)
    case GoesOn(more, observed, matched) =>
      observed <= budget && Goes(whole, ds, at + 1, budget - observed, matched, sent + more)
  }

  lemma GoesEnds<T>(whole: Play<T>, ds: seq<Delivery<T>>, at: nat, budget: nat, matched: bool, sent: seq<T>)
    requires at <= |ds| && Goes(whole, ds, at, budget, matched, sent) && (budget == 0 || at == |ds|)
    ensures whole == Play(sent, if budget == 0 then Rejected else StillWaiting)
  {
  }

  lemma GoesStarts<T>(ds: seq<Delivery<T>>, budget: nat)
    ensures Goes(Plays(ds, budget, false), ds, 0, budget, false, [])
  {
    assert ds[0..] == ds;
  }

  lemma GoesStep<T>(whole: Play<T>, ds: seq<Delivery<T>>, at: nat, budget: nat, matched: bool, sent: seq<T>)
    requires at < |ds| && budget > 0 && Goes(whole, ds, at, budget, matched, sent)
    ensures GoesBy(whole, ds, at, budget, Moves(ds[at], matched), sent)
  {
    assert ds[at..][0] == ds[at] && ds[at..][1..] == ds[at + 1..];
    var move := Moves(ds[at], matched);
    if move.GoesOn? {
      var rest := Plays(ds[at + 1..], budget - move.observed, move.matched);
      assert sent + (move.sent + rest.sent) == (sent + move.sent) + rest.sent;
    }
  }

  /** Once a request has been answered nothing more is ever submitted. */
  lemma {:induction false} MatchedIsSilent<T>(ds: seq<Delivery<T>>, budget: nat)
    ensures Plays(ds, budget, true).sent == []
  {
    if budget > 0 && ds != [] && Moves(ds[0], true).GoesOn? {
      MatchedIsSilent(ds[1..], budget - Moves(ds[0], true).observed);
    }
  }

  /** The packets owed to the first request. */
  function Owed<T>(ds: seq<Delivery<T>>): seq<T> {
    if ds == [] then []
    else if ds[0].Asked? then (if ds[0].answer.Packets? then ds[0].answer.packets else [])
    else Owed(ds[1..])
  }

  /** Whatever the port does, only the first request is answered: what is submitted is a prefix of
      the packets owed to it. */
  lemma {:induction false} OnlyTheFirstIsAnswered<T>(ds: seq<Delivery<T>>, budget: nat)
    ensures Plays(ds, budget, false).sent <= Owed(ds)
  {
    if budget > 0 && ds != [] {
      var move := Moves(ds[0], false);
      if move.GoesOn? {
        MatchedIsSilent(ds[1..], budget - move.observed);
        OnlyTheFirstIsAnswered(ds[1..], budget - move.observed);
      }
    }
  }

  /** How many packets were received. */
  function Received<T>(ds: seq<Delivery<T>>): nat {
    if ds == [] then 0 else (if ds[0].Other? || ds[0].Asked? then 1 else 0) + Received(ds[1..])
  }

  /** Nothing stops the loop in these deliveries. */
  predicate Quiet<T>(ds: seq<Delivery<T>>) {
    forall i | 0 <= i < |ds| :: (ds[i].Busy? && !ds[i].cancelled) || (ds[i].Other? && ds[i].acknowledged)
  }

  lemma QuietStep<T>(ds: seq<Delivery<T>>, budget: nat, matched: bool)
    requires ds != [] && budget > 0
    requires (ds[0].Busy? && !ds[0].cancelled) || (ds[0].Other? && ds[0].acknowledged)
    ensures Plays(ds, budget, matched) == Plays(ds[1..], budget - (if ds[0].Busy? then 0 else 1), matched)
  {
    var rest := Plays(ds[1..], budget - (if ds[0].Busy? then 0 else 1), matched);
    assert [] + rest.sent == rest.sent;
  }

  /** Quiet deliveries use up the budget and nothing else. */
  lemma {:induction false} QuietPasses<T>(before: seq<Delivery<T>>, rest: seq<Delivery<T>>, budget: nat, matched: bool)
    requires Quiet(before) && Received(before) <= budget
    ensures Plays(before + rest, budget, matched) == Plays(rest, budget - Received(before), matched)
  {
    var ds := before + rest;
    if before == [] {
      assert ds == rest;
    } else if budget > 0 {
      assert ds[0] == before[0] && ds[1..] == before[1..] + rest;
      QuietStep(ds, budget, matched);
      QuietPasses(before[1..], rest, budget - (if before[0].Busy? then 0 else 1), matched);
    }
  }

  /** A bound's worth of packets without a request: the responder gives up. */
  lemma ExhaustedIsRejected<T>(before: seq<Delivery<T>>, rest: seq<Delivery<T>>, budget: nat)
    requires Quiet(before) && Received(before) == budget
    ensures Plays(before + rest, budget, false) == Play([], Rejected)
  {
    QuietPasses(before, rest, budget, false);
  }

  /** Deliveries that run out inside the budget leave the responder waiting. */
  lemma QuietIsWaiting<T>(ds: seq<Delivery<T>>, budget: nat)
    requires Quiet(ds) && Received(ds) < budget
    ensures Plays(ds, budget, false) == Play([], StillWaiting)
  {
    QuietPasses(ds, [], budget, false);
    assert ds + [] == ds;
  }

  /** What stops the loop, and how it then returns. */
  lemma StopsAt<T>(before: seq<Delivery<T>>, d: Delivery<T>, after: seq<Delivery<T>>, budget: nat, matched: bool)
    requires Quiet(before) && Received(before) < budget
    ensures var play := Plays(before + [d] + after, budget, matched);
            && (d == Busy(true) ==> play == Play([], Cancelled))
            && (d.Fails? ==> play == Play([], PortFailed))
            && ((d.Other? || d.Asked?) && !d.acknowledged ==> play == Play([], PortFailed))
            && (d.Asked? && d.acknowledged && matched ==> play == Play([], Rejected))
            && (d.Asked? && d.acknowledged && !matched && d.answer.NoAnswer? ==> play == Play([], d.answer.error))
            && (d.Asked? && d.acknowledged && !matched && d.answer.Packets? && d.accepts < |d.answer.packets| ==>
                  play == Play(d.answer.packets[..d.accepts], PortFailed))
  {
    assert before + [d] + after == before + ([d] + after);
    QuietPasses(before, [d] + after, budget, matched);
    assert ([d] + after)[0] == d;
  }

  /** A served request that the loop reaches within its budget is answered in full, so long as the
      port accepts every packet. */
  lemma ReachedIsAnswered<T>(before: seq<Delivery<T>>, d: Delivery<T>, after: seq<Delivery<T>>, budget: nat)
    requires Quiet(before) && Received(before) < budget
    requires d.Asked? && d.acknowledged && d.answer.Packets? && |d.answer.packets| <= d.accepts
    ensures Plays(before + [d] + after, budget, false).sent == d.answer.packets
  {
    assert before + [d] + after == before + ([d] + after);
    QuietPasses(before, [d] + after, budget, false);
    assert ([d] + after)[0] == d && ([d] + after)[1..] == after;
    MatchedIsSilent(after, budget - Received(before) - 1);
  }

  /** A second request reached within the budget makes the responder give up, with the first one's
      packets submitted and no others. */
  lemma SecondIsRejected<T>(before: seq<Delivery<T>>, d: Delivery<T>, between: seq<Delivery<T>>, again: Delivery<T>,
                            after: seq<Delivery<T>>, budget: nat)
    requires Quiet(before) && Quiet(between) && Received(before) + Received(between) + 1 < budget
    requires d.Asked? && d.acknowledged && d.answer.Packets? && |d.answer.packets| <= d.accepts
    requires again.Asked? && again.acknowledged
    ensures Plays(before + ([d] + (between + [again] + after)), budget, false) == Play(d.answer.packets, Rejected)
  {
    var rest := between + [again] + after;
    QuietPasses(before, [d] + rest, budget, false);
    assert ([d] + rest)[0] == d && ([d] + rest)[1..] == rest;
    StopsAt(between, again, after, budget - Received(before) - 1, true);
  }
}
