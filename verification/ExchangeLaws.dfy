/** Exchanges over every run: a call filed leaves once, and its caller hears its own answer alone. */
module ExchangeLaws {
  import opened Wrappers
  import opened Bytes
  import opened Text
  import opened Exchanges

  /** What a caller is told of its call. */
  datatype Body = Res(payload: seq<byte>) | TimedOut | ProviderLeft | NoProvider

  datatype Sent = Sent(to: Session, corr: string, body: Body)

  /** How a call left. */
  datatype How = Replied(giver: Session, under: string, payload: seq<byte>) | Expiry | OrphanedBy(sid: Session) | CallerLeft

  datatype Outcome = Outcome(filed: Filed, how: How)

  /** `released` are the sessions whose surfaces a departure has released, `ended` those whose
      calls it has then ended. `filings`, `outcomes` and `sent` are the history. */
  datatype System = System(
    pending: Pending,
    providers: map<string, Session>,
    released: set<Session>,
    ended: set<Session>,
    filings: seq<Filed>,
    outcomes: seq<Outcome>,
    sent: seq<Sent>)

  const START := System(Pending(0, []), map[], {}, {}, [], [], [])

  datatype Action =
    | Attaches(sid: Session, surface: string)
    | Calls(sid: Session, surface: string, corr: string)
    | Responds(sid: Session, minted: string, payload: seq<byte>)
    | Bound(minted: string)
    | Releases(sid: Session)
    | Ends(sid: Session)

  /** The calls that leave at a session's end, in order. */
  function EndOutcomes(calls: seq<Filed>, sid: Session): seq<Outcome> {
    if calls == [] then []
    else
      var f := calls[|calls| - 1];
      EndOutcomes(calls[..|calls| - 1], sid) +
        if !Of(f.call, sid) then [] else [Outcome(f, if f.call.caller == sid then CallerLeft else OrphanedBy(sid))]
  }

  function Told(orphaned: seq<Call>): seq<Sent> {
    seq(|orphaned|, i requires 0 <= i < |orphaned| => Sent(orphaned[i].caller, orphaned[i].corr, ProviderLeft))
  }

  /** A session acts until it departs; a departure releases its surfaces, then ends its calls. */
  function Next(s: System, a: Action): System {
    match a
    case Attaches(sid, surface) =>
      if sid in s.released then s else s.(providers := s.providers[surface := sid])
    case Calls(sid, surface, corr) =>
      if sid in s.released then s
      else if surface !in s.providers then s.(sent := s.sent + [Sent(sid, corr, NoProvider)])
      else
        var (pending, minted) := File(s.pending, sid, corr, s.providers[surface]);
        s.(pending := pending, filings := s.filings + [Filed(minted, Call(sid, corr, s.providers[surface]))])
    case Responds(sid, minted, payload) =>
      if sid in s.released then s
      else
        (match Answered(s.pending, sid, minted)
         case (_, None) => s
         case (pending, Some(c)) =>
           s.(pending := pending, outcomes := s.outcomes + [Outcome(Filed(minted, c), Replied(sid, minted, payload))],
              sent := s.sent + [Sent(c.caller, c.corr, Res(payload))]))
    case Bound(minted) =>
      (match Expired(s.pending, minted)
       case (_, None) => s
       case (pending, Some(c)) =>
         s.(pending := pending, outcomes := s.outcomes + [Outcome(Filed(minted, c), Expiry)],
            sent := s.sent + [Sent(c.caller, c.corr, TimedOut)]))
    case Releases(sid) =>
      s.(providers := map k | k in s.providers && s.providers[k] != sid :: s.providers[k], released := s.released + {sid})
    case Ends(sid) =>
      if sid !in s.released then s
      else
        var (pending, orphaned) := Ended(s.pending, sid);
        s.(pending := pending, ended := s.ended + {sid}, outcomes := s.outcomes + EndOutcomes(s.pending.calls, sid),
           sent := s.sent + Told(orphaned))
  }

  function Run(actions: seq<Action>): System {
    if actions == [] then START else Next(Run(actions[..|actions| - 1]), actions[|actions| - 1])
  }

  function FiledOf(outcomes: seq<Outcome>): seq<Filed> {
    seq(|outcomes|, i requires 0 <= i < |outcomes| => outcomes[i].filed)
  }

  /** What an outcome has its caller told. */
  function Tells(o: Outcome): seq<Sent> {
    match o.how
    case Replied(_, _, payload) => [Sent(o.filed.call.caller, o.filed.call.corr, Res(payload))]
    case Expiry => [Sent(o.filed.call.caller, o.filed.call.corr, TimedOut)]
    case OrphanedBy(_) => [Sent(o.filed.call.caller, o.filed.call.corr, ProviderLeft)]
    case CallerLeft => []
  }

  function TellsAll(outcomes: seq<Outcome>): seq<Sent> {
    if outcomes == [] then [] else TellsAll(outcomes[..|outcomes| - 1]) + Tells(outcomes[|outcomes| - 1])
  }

  /** What was sent of calls that were filed. */
  function OfFiled(sent: seq<Sent>): seq<Sent> {
    if sent == [] then [] else OfFiled(sent[..|sent| - 1]) + if sent[|sent| - 1].body.NoProvider? then [] else [sent[|sent| - 1]]
  }

  /** An outcome its call allows: answered by the session it was handed to, under the correlation
      minted for it; orphaned by that session's end; forgotten at its caller's. */
  ghost predicate Fair(o: Outcome, ended: set<Session>) {
    match o.how
    case Replied(giver, under, _) => giver == o.filed.call.provider && under == o.filed.minted
    case Expiry => true
    case OrphanedBy(sid) => sid == o.filed.call.provider && sid in ended
    case CallerLeft => o.filed.call.caller in ended
  }

  ghost predicate NoneGone(calls: seq<Filed>, ended: set<Session>) {
    forall i | 0 <= i < |calls| :: calls[i].call.caller !in ended && calls[i].call.provider !in ended
  }

  ghost predicate AllFair(outcomes: seq<Outcome>, ended: set<Session>) {
    forall i | 0 <= i < |outcomes| :: Fair(outcomes[i], ended)
  }

  ghost predicate Mints(filings: seq<Filed>, minted: nat) {
    |filings| == minted && forall i | 0 <= i < |filings| :: filings[i].minted == Minted(i + 1)
  }

  /** Every call filed is pending, or has left, and not both nor twice. */
  ghost predicate Accounted(filings: seq<Filed>, calls: seq<Filed>, outcomes: seq<Outcome>) {
    multiset(filings) == multiset(calls) + multiset(FiledOf(outcomes))
  }

  ghost predicate Tallies(sent: seq<Sent>, outcomes: seq<Outcome>) {
    OfFiled(sent) == TellsAll(outcomes)
  }

  ghost predicate Inv(s: System) {
    && Mints(s.filings, s.pending.minted)
    && Accounted(s.filings, s.pending.calls, s.outcomes)
    && Tallies(s.sent, s.outcomes)
    && NoneGone(s.pending.calls, s.ended)
    && AllFair(s.outcomes, s.ended)
    && s.ended <= s.released
    && (forall k | k in s.providers :: s.providers[k] !in s.released)
  }

  // Parts of a step.

  lemma {:induction false} EnterAdds(calls: seq<Filed>, f: Filed)
    ensures multiset(Enter(calls, f)) == multiset(calls) + multiset{f}
  {
    if calls != [] && !Before(f.minted, calls[0].minted) {
      EnterAdds(calls[1..], f);
      assert calls == [calls[0]] + calls[1..];
    }
  }

  lemma RemoveOne(calls: seq<Filed>, at: nat)
    requires at < |calls|
    ensures multiset(calls) == multiset(calls[..at] + calls[at + 1..]) + multiset{calls[at]}
  {
    assert calls == calls[..at] + [calls[at]] + calls[at + 1..];
  }

  lemma FiledOne(outcomes: seq<Outcome>, more: seq<Outcome>)
    ensures multiset(FiledOf(outcomes + more)) == multiset(FiledOf(outcomes)) + multiset(FiledOf(more))
  {
    assert FiledOf(outcomes + more) == FiledOf(outcomes) + FiledOf(more);
  }

  lemma {:induction false} TellsMore(a: seq<Outcome>, b: seq<Outcome>)
    ensures TellsAll(a + b) == TellsAll(a) + TellsAll(b)
  {
    if b == [] {
      assert a + b == a && TellsAll(a) + [] == TellsAll(a);
    } else {
      assert (a + b)[..|a + b| - 1] == a + b[..|b| - 1];
      TellsMore(a, b[..|b| - 1]);
    }
  }

  lemma {:induction false} OfFiledMore(a: seq<Sent>, b: seq<Sent>)
    ensures OfFiled(a + b) == OfFiled(a) + OfFiled(b)
  {
    if b == [] {
      assert a + b == a && OfFiled(a) + [] == OfFiled(a);
    } else {
      assert (a + b)[..|a + b| - 1] == a + b[..|b| - 1];
      OfFiledMore(a, b[..|b| - 1]);
    }
  }

  /** What leaves the pending calls is added to the outcomes. */
  lemma Leave(filings: seq<Filed>, calls: seq<Filed>, kept: seq<Filed>, before: seq<Outcome>, left: seq<Outcome>)
    requires Accounted(filings, calls, before) && Accounted(calls, kept, left)
    ensures Accounted(filings, kept, before + left)
  {
    FiledOne(before, left);
  }

  lemma TellMore(sent: seq<Sent>, before: seq<Outcome>, told: seq<Sent>, left: seq<Outcome>)
    requires Tallies(sent, before) && Tallies(told, left)
    ensures Tallies(sent + told, before + left)
  {
    hide OfFiled, TellsAll;
    OfFiledMore(sent, told);
    TellsMore(before, left);
  }

  lemma OneTold(m: Sent, o: Outcome)
    requires !m.body.NoProvider? && Tells(o) == [m]
    ensures Tallies([m], [o])
  {
    assert [m][..0] == [] && [o][..0] == [];
  }

  /** One call leaves. */
  lemma LeavesOnce(s: System, at: nat, how: How, sent: Sent)
    requires Inv(s) && at < |s.pending.calls| && !sent.body.NoProvider?
    requires var o := Outcome(s.pending.calls[at], how); Fair(o, s.ended) && Tells(o) == [sent]
    ensures Inv(s.(pending := Without(s.pending, at), outcomes := s.outcomes + [Outcome(s.pending.calls[at], how)], sent := s.sent + [sent]))
  {
    hide Fair, Tells, Mints, Tallies;
    var o, kept := Outcome(s.pending.calls[at], how), Without(s.pending, at).calls;
    RemoveOne(s.pending.calls, at);
    FiledIs(o);
    Leave(s.filings, s.pending.calls, kept, s.outcomes, [o]);
    hide Accounted;
    OneTold(sent, o);
    TellMore(s.sent, s.outcomes, [sent], [o]);
    MoreFair(s.outcomes, [o], s.ended, s.ended);
    forall i | 0 <= i < |kept| ensures kept[i].call.caller !in s.ended && kept[i].call.provider !in s.ended {
      assert kept[i] == s.pending.calls[if i < at then i else i + 1];
    }
  }

  lemma FiledIs(o: Outcome)
    ensures FiledOf([o]) == [o.filed]
  {
  }

  lemma EndLast(init: seq<Filed>, f: Filed, sid: Session)
    ensures var calls := init + [f];
      && Kept(calls, sid) == (if Of(f.call, sid) then Kept(init, sid) else Kept(init, sid) + [f])
      && EndOutcomes(calls, sid) == (if !Of(f.call, sid) then EndOutcomes(init, sid)
           else EndOutcomes(init, sid) + [Outcome(f, if f.call.caller == sid then CallerLeft else OrphanedBy(sid))])
      && Told(Orphaned(calls, sid)) == (if f.call.provider == sid && f.call.caller != sid
           then Told(Orphaned(init, sid)) + [Sent(f.call.caller, f.call.corr, ProviderLeft)] else Told(Orphaned(init, sid)))
  {
    assert (init + [f])[..|init|] == init;
    assert Kept(init, sid) + [] == Kept(init, sid) && EndOutcomes(init, sid) + [] == EndOutcomes(init, sid);
    assert Orphaned(init, sid) + [] == Orphaned(init, sid);
    var more := Orphaned(init, sid) + [f.call];
    assert Told(more) == Told(Orphaned(init, sid)) + [Sent(f.call.caller, f.call.corr, ProviderLeft)];
  }

  lemma {:induction false} EndLeaves(calls: seq<Filed>, sid: Session)
    ensures Accounted(calls, Kept(calls, sid), EndOutcomes(calls, sid))
  {
    if calls != [] {
      hide Kept, EndOutcomes, Orphaned, Told, FiledOf;
      var init, f := calls[..|calls| - 1], calls[|calls| - 1];
      assert calls == init + [f];
      EndLeaves(init, sid);
      EndLast(init, f, sid);
      if Of(f.call, sid) {
        var o := Outcome(f, if f.call.caller == sid then CallerLeft else OrphanedBy(sid));
        FiledIs(o);
        FiledOne(EndOutcomes(init, sid), [o]);
      }
    }
  }

  lemma {:induction false} EndTells(calls: seq<Filed>, sid: Session)
    ensures Tallies(Told(Orphaned(calls, sid)), EndOutcomes(calls, sid))
  {
    if calls != [] {
      hide Kept, EndOutcomes, Orphaned, Told, Tallies;
      var init, f := calls[..|calls| - 1], calls[|calls| - 1];
      assert calls == init + [f];
      EndTells(init, sid);
      EndLast(init, f, sid);
      if f.call.caller == sid {
        var o := Outcome(f, CallerLeft);
        Untold(o);
        TellMore(Told(Orphaned(init, sid)), EndOutcomes(init, sid), [], [o]);
        assert Told(Orphaned(init, sid)) + [] == Told(Orphaned(init, sid));
      } else if f.call.provider == sid {
        var m, o := Sent(f.call.caller, f.call.corr, ProviderLeft), Outcome(f, OrphanedBy(sid));
        OneTold(m, o);
        TellMore(Told(Orphaned(init, sid)), EndOutcomes(init, sid), [m], [o]);
      }
    }
  }

  lemma Untold(o: Outcome)
    requires o.how.CallerLeft?
    ensures Tallies([], [o])
  {
    assert [o][..0] == [];
  }

  lemma {:induction false} EndFair(calls: seq<Filed>, sid: Session, ended: set<Session>)
    requires sid in ended
    ensures AllFair(EndOutcomes(calls, sid), ended)
    ensures forall i | 0 <= i < |Kept(calls, sid)| :: Kept(calls, sid)[i] in calls && !Of(Kept(calls, sid)[i].call, sid)
  {
    if calls != [] {
      EndFair(calls[..|calls| - 1], sid, ended);
      assert calls == calls[..|calls| - 1] + [calls[|calls| - 1]];
    }
  }

  lemma EndsKeeps(s: System, sid: Session)
    requires Inv(s)
    ensures Inv(Next(s, Ends(sid)))
  {
    hide Mints, Kept, EndOutcomes, Orphaned, Told, Tallies, Accounted, NoneGone, AllFair;
    if sid in s.released {
      var ended, left, kept := s.ended + {sid}, EndOutcomes(s.pending.calls, sid), Kept(s.pending.calls, sid);
      EndLeaves(s.pending.calls, sid);
      EndTells(s.pending.calls, sid);
      EndFair(s.pending.calls, sid, ended);
      Leave(s.filings, s.pending.calls, kept, s.outcomes, left);
      TellMore(s.sent, s.outcomes, Told(Orphaned(s.pending.calls, sid)), left);
      MoreFair(s.outcomes, left, s.ended, ended);
      NoneLeft(s.pending.calls, kept, sid, s.ended);
    }
  }

  lemma MoreFair(before: seq<Outcome>, left: seq<Outcome>, ended: set<Session>, ended': set<Session>)
    requires AllFair(before, ended) && AllFair(left, ended') && ended <= ended'
    ensures AllFair(before + left, ended')
  {
    forall i | 0 <= i < |before + left| ensures Fair((before + left)[i], ended') {
      if i < |before| { assert Fair(before[i], ended); } else { assert Fair(left[i - |before|], ended'); }
    }
  }

  lemma NoneLeft(calls: seq<Filed>, kept: seq<Filed>, sid: Session, ended: set<Session>)
    requires NoneGone(calls, ended) && forall i | 0 <= i < |kept| :: kept[i] in calls && !Of(kept[i].call, sid)
    ensures NoneGone(kept, ended + {sid})
  {
    forall i | 0 <= i < |kept| ensures kept[i].call.caller !in ended + {sid} && kept[i].call.provider !in ended + {sid} {
      var j :| 0 <= j < |calls| && calls[j] == kept[i];
    }
  }

  lemma CallsKeeps(s: System, sid: Session, surface: string, corr: string)
    requires Inv(s)
    ensures Inv(Next(s, Calls(sid, surface, corr)))
  {
    hide Minted, AllFair, NoneGone, Tallies, Enter;
    if sid !in s.released {
      if surface !in s.providers {
        hide Mints, Accounted;
        NotOfFiled(s.sent, Sent(sid, corr, NoProvider), s.outcomes);
      } else {
        var f := Filed(Minted(s.pending.minted + 1), Call(sid, corr, s.providers[surface]));
        EnterAdds(s.pending.calls, f);
        NoneEntered(s.pending.calls, f, s.ended);
        assert multiset(s.filings + [f]) == multiset(s.pending.calls) + multiset{f} + multiset(FiledOf(s.outcomes));
      }
    }
  }

  lemma NotOfFiled(sent: seq<Sent>, m: Sent, outcomes: seq<Outcome>)
    requires m.body.NoProvider? && Tallies(sent, outcomes)
    ensures Tallies(sent + [m], outcomes)
  {
    assert (sent + [m])[..|sent|] == sent && OfFiled(sent) + [] == OfFiled(sent);
  }

  lemma NoneEntered(calls: seq<Filed>, f: Filed, ended: set<Session>)
    requires NoneGone(calls, ended) && f.call.caller !in ended && f.call.provider !in ended
    ensures NoneGone(Enter(calls, f), ended)
  {
    hide Enter;
    EnterAdds(calls, f);
    var more := Enter(calls, f);
    forall i | 0 <= i < |more| ensures more[i].call.caller !in ended && more[i].call.provider !in ended {
      assert more[i] in multiset(more);
      assert more[i] in multiset(calls) || more[i] == f;
    }
  }

  lemma ReleaseKeeps(s: System, sid: Session, surface: string)
    requires Inv(s)
    ensures Inv(Next(s, Releases(sid))) && Inv(Next(s, Attaches(sid, surface)))
  {
    hide Mints, Accounted, Tallies, AllFair, NoneGone;
  }

  lemma NextKeeps(s: System, a: Action)
    requires Inv(s)
    ensures Inv(Next(s, a))
  {
    match a
    case Attaches(sid, surface) => ReleaseKeeps(s, sid, surface);
    case Releases(sid) => ReleaseKeeps(s, sid, "");
    case Calls(sid, surface, corr) => CallsKeeps(s, sid, surface, corr);
    case Responds(sid, minted, payload) => RespondsKeeps(s, sid, minted, payload);
    case Bound(minted) => BoundKeeps(s, minted);
    case Ends(sid) => EndsKeeps(s, sid);
  }

  lemma RespondsKeeps(s: System, sid: Session, minted: string, payload: seq<byte>)
    requires Inv(s)
    ensures Inv(Next(s, Responds(sid, minted, payload)))
  {
    hide Inv, Minted;
    var at := At(s.pending.calls, minted);
    if sid !in s.released && at < |s.pending.calls| && s.pending.calls[at].call.provider == sid {
      var f := s.pending.calls[at];
      assert f == Filed(minted, f.call);
      LeavesOnce(s, at, Replied(sid, minted, payload), Sent(f.call.caller, f.call.corr, Res(payload)));
    }
  }

  lemma BoundKeeps(s: System, minted: string)
    requires Inv(s)
    ensures Inv(Next(s, Bound(minted)))
  {
    hide Inv, Minted;
    var at := At(s.pending.calls, minted);
    if at < |s.pending.calls| {
      var f := s.pending.calls[at];
      assert f == Filed(minted, f.call);
      LeavesOnce(s, at, Expiry, Sent(f.call.caller, f.call.corr, TimedOut));
    }
  }

  lemma {:induction false} RunKeeps(actions: seq<Action>)
    ensures Inv(Run(actions))
  {
    hide Next;
    if actions != [] {
      RunKeeps(actions[..|actions| - 1]);
      NextKeeps(Run(actions[..|actions| - 1]), actions[|actions| - 1]);
    }
  }

  // What every run gives.

  /** No correlation is minted twice. */
  lemma MintedOnce(actions: seq<Action>, i: nat, j: nat)
    requires i < j < |Run(actions).filings|
    ensures Run(actions).filings[i].minted != Run(actions).filings[j].minted
  {
    RunKeeps(actions);
    if Run(actions).filings[i].minted == Run(actions).filings[j].minted {
      assert Minted(i + 1)[1..] == Decimal(i + 1) && Minted(j + 1)[1..] == Decimal(j + 1);
      DecimalInjective(i + 1, j + 1);
    }
  }

  /** In every run a call that was filed is pending or has left, not both, and has left at most
      once. */
  lemma EachCallLeavesOnce(actions: seq<Action>, f: Filed)
    requires f in Run(actions).filings
    ensures var s := Run(actions);
      && multiset(s.filings)[f] == 1
      && multiset(s.pending.calls)[f] + multiset(FiledOf(s.outcomes))[f] == 1
      && (f in s.pending.calls <==> forall i | 0 <= i < |s.outcomes| :: s.outcomes[i].filed != f)
  {
    hide Run, Fair, TellsAll, OfFiled, NoneGone;
    var s := Run(actions);
    RunKeeps(actions);
    var i :| 0 <= i < |s.filings| && s.filings[i] == f;
    var before, after := s.filings[..i], s.filings[i + 1..];
    assert s.filings == before + [f] + after;
    forall j | 0 <= j < |s.filings| && j != i ensures s.filings[j] != f {
      MintedOnce(actions, if i < j then i else j, if i < j then j else i);
    }
    assert f !in before && f !in after;
    assert multiset(s.filings)[f] == 1;
    LeftOf(s.outcomes, f);
    assert f in s.pending.calls <==> multiset(s.pending.calls)[f] > 0;
  }

  lemma LeftOf(outcomes: seq<Outcome>, f: Filed)
    ensures multiset(FiledOf(outcomes))[f] > 0 <==> exists i | 0 <= i < |outcomes| :: outcomes[i].filed == f
  {
    if i :| 0 <= i < |outcomes| && outcomes[i].filed == f {
      assert FiledOf(outcomes)[i] == f && f in FiledOf(outcomes);
    }
    if f in FiledOf(outcomes) {
      var i :| 0 <= i < |FiledOf(outcomes)| && FiledOf(outcomes)[i] == f;
      assert outcomes[i].filed == f;
    }
  }

  /** What callers are told of filed calls is what their outcomes tell, in order, one each and none
      for a call its caller left; and each outcome is its own call's: a reply is from the provider
      that was handed the call, under the correlation minted for it. */
  lemma CallersHearTheirOwn(actions: seq<Action>)
    ensures var s := Run(actions);
      && OfFiled(s.sent) == TellsAll(s.outcomes)
      && forall i | 0 <= i < |s.outcomes| :: s.outcomes[i].filed in s.filings && Fair(s.outcomes[i], s.ended)
  {
    hide Run, Fair, TellsAll, OfFiled, NoneGone, Mints;
    var s := Run(actions);
    RunKeeps(actions);
    forall i | 0 <= i < |s.outcomes| ensures s.outcomes[i].filed in s.filings {
      LeftOf(s.outcomes, s.outcomes[i].filed);
      assert s.outcomes[i].filed in multiset(s.filings);
    }
  }

  /** So a reply a caller gets is to a call it made, under its own correlation, given by the
      provider that was handed it. */
  lemma RepliesAreTheirs(actions: seq<Action>, at: nat)
    requires at < |Run(actions).sent| && Run(actions).sent[at].body.Res?
    ensures var s, m := Run(actions), Run(actions).sent[at];
      exists i | 0 <= i < |s.outcomes| :: s.outcomes[i].filed in s.filings
        && s.outcomes[i].filed.call.caller == m.to && s.outcomes[i].filed.call.corr == m.corr
        && s.outcomes[i].how == Replied(s.outcomes[i].filed.call.provider, s.outcomes[i].filed.minted, m.body.payload)
  {
    hide Run, TellsAll, OfFiled;
    var s := Run(actions);
    CallersHearTheirOwn(actions);
    InOfFiled(s.sent, at);
    var i := ToldBy(s.outcomes, s.sent[at]);
    assert Fair(s.outcomes[i], s.ended);
  }

  lemma {:induction false} InOfFiled(sent: seq<Sent>, at: nat)
    requires at < |sent| && !sent[at].body.NoProvider?
    ensures sent[at] in OfFiled(sent)
  {
    if at < |sent| - 1 {
      InOfFiled(sent[..|sent| - 1], at);
    }
  }

  lemma {:induction false} ToldBy(outcomes: seq<Outcome>, m: Sent) returns (i: nat)
    requires m in TellsAll(outcomes)
    ensures i < |outcomes| && m in Tells(outcomes[i])
  {
    if m in Tells(outcomes[|outcomes| - 1]) {
      i := |outcomes| - 1;
    } else {
      i := ToldBy(outcomes[..|outcomes| - 1], m);
    }
  }

  /** Once a session's end has been taken, no call waits on it, and none of its own is pending, then
      or ever after. */
  lemma NoneWaitsOnTheGone(actions: seq<Action>, more: seq<Action>, sid: Session, f: Filed)
    requires sid in Run(actions).ended && f in Run(actions + more).pending.calls
    ensures f.call.provider != sid && f.call.caller != sid
  {
    hide Run, Mints, Accounted;
    EndedStays(actions, more, sid);
    RunKeeps(actions + more);
  }

  lemma {:induction false} EndedStays(actions: seq<Action>, more: seq<Action>, sid: Session)
    requires sid in Run(actions).ended
    ensures sid in Run(actions + more).ended
    decreases more
  {
    if more == [] {
      assert actions + more == actions;
    } else {
      assert (actions + more)[..|actions + more| - 1] == actions + more[..|more| - 1];
      EndedStays(actions, more[..|more| - 1], sid);
    }
  }
}
