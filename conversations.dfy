/**
 * The two conversations of one user and how an inbound event is routed to a
 * handler, following the handler table registered in `main`: the onboarding
 * conversation is consulted first, then the deploy conversation, then the
 * one-shot commands. A conversation not in progress only reacts to its entry
 * commands; one in progress only to its state's text handler and to
 * `/cancel` (re-entry is off). Both conversations share the user's session
 * dictionary.
 */
module Conversations {
  import opened Wrappers
  import opened Json
  import opened PyStr
  import opened Bankr
  import opened Credentials
  import opened Dialog
  import opened Onboarding
  import opened DeployFlow

  /**
   * `AsWritten`: the onboarding conversation's `/cancel` runs `deploy_cancel`
   * and clears the shared session dictionary. `Corrected`: it only ends the
   * onboarding conversation.
   */
  datatype Build = AsWritten | Corrected

  /** Everything one user's events can change: the key store, the session dictionary, both conversation states. */
  datatype Config = Config(keys: map<int, string>, userData: Dict, onboard: State, deploy: State)

  /** The configuration after an event and the gateway request the handler sent, if any. */
  datatype Transition = Transition(after: Config, call: Option<Request>)

  /** The onboarding conversation has a handler for the event. */
  predicate OnboardHandles(s: State, ev: Event) {
    if s == End then ev == Command(Start) || ev == Command(SetKey)
    else (s == AwaitApiKey && ev.Message?) || ev == Command(Cancel)
  }

  /** The deploy conversation has a handler for the event. */
  predicate DeployHandles(s: State, ev: Event) {
    if s == End then ev == Command(Deploy) || ev == Command(Simulate)
    else (s != AwaitApiKey && ev.Message?) || ev == Command(Cancel)
  }

  /** The onboarding conversation handles the event. */
  function OnboardStep(b: Build, c: Config, userId: int, ev: Event, gw: GatewayResult): (t: Transition)
    requires OnboardHandles(c.onboard, ev)
    ensures t.after.deploy == c.deploy
    ensures t.after.userData == if b == AsWritten && ev == Command(Cancel) then map[] else c.userData
    ensures t.after.keys != c.keys || t.call.Some? ==> ev.Message?
  {
    match ev
    case Message(text) =>
      var e := ReceiveKey(c.keys, userId, text, gw);
      Transition(c.(keys := e.keys, onboard := e.next), e.call)
    case Command(cmd) =>
      if cmd == Start then Transition(c.(onboard := StartNext(c.keys, userId)), None)
      else if cmd == SetKey then Transition(c.(onboard := AwaitApiKey), None)
      else
        var d := if b == AsWritten then CancelStep(c.userData).userData else c.userData;
        Transition(c.(onboard := End, userData := d), None)
  }

  /** A deploy handler's effect on the configuration; a handler that raised leaves the state where it was. */
  function Apply(c: Config, e: Effect): Transition {
    Transition(c.(userData := e.userData, deploy := if e.next.Some? then e.next.value else c.deploy), e.call)
  }

  /** The deploy conversation handles the event. */
  function DeployStep(c: Config, userId: int, ev: Event, gw: GatewayResult): (t: Transition)
    requires DeployHandles(c.deploy, ev)
    ensures t.after.keys == c.keys && t.after.onboard == c.onboard
  {
    match ev
    case Command(cmd) =>
      if cmd == Deploy then Apply(c, Enter(c.keys, userId, c.userData, false))
      else if cmd == Simulate then Apply(c, Enter(c.keys, userId, c.userData, true))
      else Apply(c, CancelStep(c.userData))
    case Message(text) =>
      match c.deploy
      case DeployName => Apply(c, NameStep(c.userData, text))
      case DeploySymbol => Apply(c, SymbolStep(c.userData, text))
      case DeployDesc => Apply(c, DescStep(c.userData, text))
      case DeployImage => Apply(c, ImageStep(c.userData, text))
      case DeployConfirm => Apply(c, ConfirmStep(c.keys, userId, c.userData, text, gw))
  }

  /**
   * One inbound event for `userId`; `gw` is what the gateway answers if a
   * handler calls it. Events no conversation takes (one-shot commands,
   * stray text) change nothing here.
   */
  function Dispatch(b: Build, c: Config, userId: int, ev: Event, gw: GatewayResult): Transition {
    if OnboardHandles(c.onboard, ev) then OnboardStep(b, c, userId, ev, gw)
    else if DeployHandles(c.deploy, ev) then DeployStep(c, userId, ev, gw)
    else Transition(c, None)
  }

  /**
   * Each conversation keeps to its own state: an event onboarding takes
   * never moves the deploy state, one it does not take never touches the
   * store or the onboarding state, and one neither takes changes nothing.
   */
  lemma DispatchKeepsToItsConversation(b: Build, c: Config, userId: int, ev: Event, gw: GatewayResult)
    ensures var t := Dispatch(b, c, userId, ev, gw);
            (OnboardHandles(c.onboard, ev) ==> t.after.deploy == c.deploy)
            && (!OnboardHandles(c.onboard, ev) ==> t.after.keys == c.keys && t.after.onboard == c.onboard)
            && (!OnboardHandles(c.onboard, ev) && !DeployHandles(c.deploy, ev) ==> t == Transition(c, None))
  {
  }

  /** The position of a deploy state in the flow (0 for the others). */
  function Step(s: State): nat {
    match s
    case DeployName => 1
    case DeploySymbol => 2
    case DeployDesc => 3
    case DeployImage => 4
    case DeployConfirm => 5
    case _ => 0
  }

  /**
   * Each conversation is in one of its own states, and while the deploy
   * conversation runs the session holds the boolean entry flag and every
   * field an earlier step stored.
   */
  predicate WellFormed(c: Config) {
    (c.onboard == End || c.onboard == AwaitApiKey)
    && c.deploy != AwaitApiKey
    && (c.deploy != End ==> "simulate" in c.userData && c.userData["simulate"].Bool?)
    && (Step(c.deploy) >= 2 ==> "name" in c.userData)
    && (Step(c.deploy) >= 3 ==> "symbol" in c.userData)
    && (Step(c.deploy) >= 4 ==> "desc" in c.userData)
  }

  /** Nothing has started: both conversations ended, the session empty. */
  lemma IdleIsWellFormed(keys: map<int, string>)
    ensures WellFormed(Config(keys, map[], End, End))
  {
  }

  /** Onboarding events touch only the key store and the onboarding state. */
  lemma OnboardingKeepsWellFormed(b: Build, c: Config, userId: int, ev: Event, gw: GatewayResult)
    requires WellFormed(c) && OnboardHandles(c.onboard, ev)
    ensures var c' := Dispatch(b, c, userId, ev, gw).after;
            c'.deploy == c.deploy && (b == Corrected ==> c'.userData == c.userData && WellFormed(c'))
  {
  }

  /** Text while onboarding is idle and the deploy conversation runs goes to the deploy state's handler. */
  lemma RoutedToDeploy(b: Build, c: Config, userId: int, text: string, gw: GatewayResult)
    requires c.onboard == End && c.deploy != End && c.deploy != AwaitApiKey
    ensures Dispatch(b, c, userId, Message(text), gw) == DeployStep(c, userId, Message(text), gw)
  {
  }

  /**
   * The collect steps never block: from the name, symbol, description and
   * image states any text advances the flow by one state, and the session
   * stays well formed.
   */
  lemma CollectStepsAdvance(b: Build, c: Config, userId: int, text: string, gw: GatewayResult)
    requires WellFormed(c) && c.onboard == End && 1 <= Step(c.deploy) <= 4
    ensures var c' := Dispatch(b, c, userId, Message(text), gw).after;
            WellFormed(c') && Step(c'.deploy) == Step(c.deploy) + 1
  {
    RoutedToDeploy(b, c, userId, text, gw);
    if c.deploy == DeployImage {
      ImageAdvances(c, userId, text, gw);
    } else {
      FieldAdvances(c, userId, text, gw);
    }
  }

  /** The name, symbol and description steps store their field and move on. */
  lemma FieldAdvances(c: Config, userId: int, text: string, gw: GatewayResult)
    requires WellFormed(c) && 1 <= Step(c.deploy) <= 3
    ensures var c' := DeployStep(c, userId, Message(text), gw).after;
            WellFormed(c') && Step(c'.deploy) == Step(c.deploy) + 1
  {
    if c.deploy == DeployName {
      NameAdvances(c, userId, text, gw);
    } else if c.deploy == DeploySymbol {
      SymbolAdvances(c, userId, text, gw);
    } else {
      DescAdvances(c, userId, text, gw);
    }
  }

  lemma NameAdvances(c: Config, userId: int, text: string, gw: GatewayResult)
    requires WellFormed(c) && c.deploy == DeployName
    ensures var c' := DeployStep(c, userId, Message(text), gw).after;
            WellFormed(c') && c'.deploy == DeploySymbol
  {
    assert DeployStep(c, userId, Message(text), gw) == Apply(c, NameStep(c.userData, text));
  }

  lemma SymbolAdvances(c: Config, userId: int, text: string, gw: GatewayResult)
    requires WellFormed(c) && c.deploy == DeploySymbol
    ensures var c' := DeployStep(c, userId, Message(text), gw).after;
            WellFormed(c') && c'.deploy == DeployDesc
  {
    assert DeployStep(c, userId, Message(text), gw) == Apply(c, SymbolStep(c.userData, text));
  }

  lemma DescAdvances(c: Config, userId: int, text: string, gw: GatewayResult)
    requires WellFormed(c) && c.deploy == DeployDesc
    ensures var c' := DeployStep(c, userId, Message(text), gw).after;
            WellFormed(c') && c'.deploy == DeployImage
  {
    assert DeployStep(c, userId, Message(text), gw) == Apply(c, DescStep(c.userData, text));
  }

  /** The image step finds name, symbol and description in a well-formed session and moves to confirmation. */
  lemma ImageAdvances(c: Config, userId: int, text: string, gw: GatewayResult)
    requires WellFormed(c) && c.deploy == DeployImage
    ensures var c' := DeployStep(c, userId, Message(text), gw).after;
            WellFormed(c') && c'.deploy == DeployConfirm
  {
    var d := c.userData;
    assert DeployStep(c, userId, Message(text), gw) == Apply(c, ImageStep(d, text));
    assert SummaryReads(d["image" := Optional(text, false)]);
  }

  /**
   * Once confirmation is answered, the deploy conversation is over and the
   * session empty, whatever the gateway answered, unless rendering its answer
   * raised; then nothing changed.
   */
  lemma ConfirmationEndsFlow(b: Build, c: Config, userId: int, text: string, gw: GatewayResult)
    requires WellFormed(c) && c.onboard == End && c.deploy == DeployConfirm
    ensures var c' := Dispatch(b, c, userId, Message(text), gw).after;
            WellFormed(c')
            && (!IsConfirm(text) || !RenderRaises(gw) ==> c'.deploy == End && c'.userData == map[])
            && (IsConfirm(text) && RenderRaises(gw) ==> c' == c)
  {
    var e := ConfirmStep(c.keys, userId, c.userData, text, gw);
    assert Dispatch(b, c, userId, Message(text), gw) == Apply(c, e);
  }

  /** With the corrected `/cancel`, every event keeps the configuration well formed. */
  lemma WellFormedPreserved(c: Config, userId: int, ev: Event, gw: GatewayResult)
    requires WellFormed(c)
    ensures WellFormed(Dispatch(Corrected, c, userId, ev, gw).after)
  {
    if OnboardHandles(c.onboard, ev) {
      OnboardingKeepsWellFormed(Corrected, c, userId, ev, gw);
    } else if !DeployHandles(c.deploy, ev) {
      assert Dispatch(Corrected, c, userId, ev, gw).after == c;
    } else if ev.Message? {
      if c.deploy == DeployConfirm {
        ConfirmationEndsFlow(Corrected, c, userId, ev.text, gw);
      } else {
        CollectStepsAdvance(Corrected, c, userId, ev.text, gw);
      }
    } else {
      assert Dispatch(Corrected, c, userId, ev, gw) == DeployStep(c, userId, ev, gw);
    }
  }

  /**
   * With the corrected `/cancel`: the entry flag is set by the entry command
   * (`/simulate` sets it, `/deploy` clears it), and while the deploy
   * conversation runs no event changes it.
   */
  lemma FlagFixedAtEntry(c: Config, userId: int, ev: Event, gw: GatewayResult)
    requires WellFormed(c)
    ensures var c' := Dispatch(Corrected, c, userId, ev, gw).after;
            (c.deploy != End && c'.deploy != End ==> c'.userData["simulate"] == c.userData["simulate"])
            && (c.deploy == End && c'.deploy != End ==>
                  c'.deploy == DeployName && c'.userData == map["simulate" := Bool(ev == Command(Simulate))])
  {
  }

  /**
   * Every request an event sends is either the onboarding probe for the
   * stripped key text, or the deploy submission at confirmation; with the
   * corrected `/cancel` the submission's `simulateOnly` is the session's
   * entry flag, and a confirmed deploy never fails for a missing `name`.
   */
  lemma SubmissionCarriesFlag(c: Config, userId: int, ev: Event, gw: GatewayResult)
    requires WellFormed(c)
    ensures var t := Dispatch(Corrected, c, userId, ev, gw);
            t.call.Some? ==>
              (c.onboard == AwaitApiKey && ev.Message? && t.call.value == ProbeRequest(Strip(ev.text)))
              || (c.onboard == End && c.deploy == DeployConfirm && ev.Message? && IsConfirm(ev.text)
                  && "simulateOnly" in t.call.value.payload && "simulate" in c.userData
                  && t.call.value.payload["simulateOnly"] == c.userData["simulate"])
    ensures c.onboard == End && c.deploy == DeployConfirm && ev.Message? && IsConfirm(ev.text) ==>
              Dispatch(Corrected, c, userId, ev, gw).call.Some?
  {
    var t := Dispatch(Corrected, c, userId, ev, gw);
    if OnboardHandles(c.onboard, ev) {
      assert t == OnboardStep(Corrected, c, userId, ev, gw);
    } else if DeployHandles(c.deploy, ev) {
      assert t == DeployStep(c, userId, ev, gw);
      if ev.Message? && c.deploy == DeployConfirm {
        ConfirmCarriesFlag(c, userId, ev.text, gw);
      } else {
        CallsOnlyAtConfirm(c, userId, ev, gw);
      }
    }
  }

  /** At confirmation a request is sent exactly on the confirm word, and it carries the entry flag. */
  lemma ConfirmCarriesFlag(c: Config, userId: int, text: string, gw: GatewayResult)
    requires WellFormed(c) && c.deploy == DeployConfirm
    ensures var t := DeployStep(c, userId, Message(text), gw);
            (t.call.Some? <==> IsConfirm(text))
            && (t.call.Some? ==> "simulateOnly" in t.call.value.payload
                                 && t.call.value.payload["simulateOnly"] == c.userData["simulate"])
  {
    assert DeployStep(c, userId, Message(text), gw) == Apply(c, ConfirmStep(c.keys, userId, c.userData, text, gw));
  }

  /** No deploy handler other than confirmation sends a request. */
  lemma CallsOnlyAtConfirm(c: Config, userId: int, ev: Event, gw: GatewayResult)
    requires DeployHandles(c.deploy, ev) && !(ev.Message? && c.deploy == DeployConfirm)
    ensures DeployStep(c, userId, ev, gw).call.None?
  {
    if ev.Message? && c.deploy == DeployImage {
      assert DeployStep(c, userId, ev, gw) == Apply(c, ImageStep(c.userData, ev.text));
    }
  }

  /**
   * `/cancel` ends whichever conversation is in progress (onboarding first).
   * Cancelling the deploy conversation always empties the session.
   */
  lemma CancelEnds(b: Build, c: Config, userId: int, gw: GatewayResult)
    requires c.onboard != End || c.deploy != End
    ensures var c' := Dispatch(b, c, userId, Command(Cancel), gw).after;
            (c.onboard != End ==> c'.onboard == End && c'.deploy == c.deploy)
            && (c.onboard != End ==> c'.userData == if b == AsWritten then map[] else c.userData)
            && (c.onboard == End ==> c'.deploy == End && c'.userData == map[])
  {
  }

  /** The outcome of a sequence of events. */
  datatype Outcome = Outcome(final: Config, calls: seq<Request>)

  /**
   * Events processed one after another; `gws[i]` is what the gateway answers
   * if the handler of `evs[i]` calls it.
   */
  function RunAnswered(b: Build, c: Config, userId: int, evs: seq<Event>, gws: seq<GatewayResult>): Outcome
    requires |gws| == |evs|
    decreases |evs|
  {
    if evs == [] then Outcome(c, [])
    else
      var t := Dispatch(b, c, userId, evs[0], gws[0]);
      var rest := RunAnswered(b, t.after, userId, evs[1..], gws[1..]);
      Outcome(rest.final, (if t.call.Some? then [t.call.value] else []) + rest.calls)
  }

  /** Events processed one after another, the gateway giving the same answer `gw` to every call. */
  function Run(b: Build, c: Config, userId: int, evs: seq<Event>, gw: GatewayResult): Outcome
    decreases |evs|
  {
    if evs == [] then Outcome(c, [])
    else
      var t := Dispatch(b, c, userId, evs[0], gw);
      var rest := Run(b, t.after, userId, evs[1..], gw);
      Outcome(rest.final, (if t.call.Some? then [t.call.value] else []) + rest.calls)
  }

  /** `Run` is the run in which every event's gateway answer is `gw`. */
  lemma {:induction false} RunAnswersAlike(b: Build, c: Config, userId: int, evs: seq<Event>, gw: GatewayResult)
    ensures Run(b, c, userId, evs, gw) == RunAnswered(b, c, userId, evs, seq(|evs|, _ => gw))
    decreases |evs|
  {
    if evs != [] {
      var gws := seq(|evs|, _ => gw);
      assert gws[0] == gw;
      assert gws[1..] == seq(|evs| - 1, _ => gw);
      RunAnswersAlike(b, Dispatch(b, c, userId, evs[0], gw).after, userId, evs[1..], gw);
    }
  }

  /**
   * With the corrected `/cancel`, any sequence of events, whatever the
   * gateway answers each call, keeps the configuration well formed.
   */
  lemma {:induction false} WellFormedAlongRuns(c: Config, userId: int, evs: seq<Event>, gws: seq<GatewayResult>)
    requires WellFormed(c) && |gws| == |evs|
    ensures WellFormed(RunAnswered(Corrected, c, userId, evs, gws).final)
    decreases |evs|
  {
    if evs != [] {
      WellFormedPreserved(c, userId, evs[0], gws[0]);
      WellFormedAlongRuns(Dispatch(Corrected, c, userId, evs[0], gws[0]).after, userId, evs[1..], gws[1..]);
    }
  }
}
