/**
 * Whole conversations replayed through `Run`: the `/cancel` interleaving that
 * turns a simulation into a real deploy when `/cancel` clears the shared
 * session, and the same interleaving with the corrected `/cancel`.
 */
module Scenarios {
  import opened Wrappers
  import opened Json
  import opened PyStr
  import opened Bankr
  import opened Credentials
  import opened Dialog
  import opened DeployFlow
  import opened Conversations

  /** Running two event sequences one after the other is running their concatenation. */
  lemma {:induction false} RunAppend(b: Build, c: Config, userId: int, xs: seq<Event>, ys: seq<Event>, gw: GatewayResult)
    ensures var first := Run(b, c, userId, xs, gw);
            var second := Run(b, first.final, userId, ys, gw);
            Run(b, c, userId, xs + ys, gw) == Outcome(second.final, first.calls + second.calls)
    decreases |xs|
  {
    if xs == [] {
      assert xs + ys == ys;
    } else {
      assert (xs + ys)[0] == xs[0];
      assert (xs + ys)[1..] == xs[1..] + ys;
      var t := Dispatch(b, c, userId, xs[0], gw);
      RunAppend(b, t.after, userId, xs[1..], ys, gw);
      var head := if t.call.Some? then [t.call.value] else [];
      var first := Run(b, t.after, userId, xs[1..], gw);
      var second := Run(b, first.final, userId, ys, gw);
      assert head + (first.calls + second.calls) == (head + first.calls) + second.calls;
    }
  }

  /** A single event that sends nothing. */
  lemma RunOne(b: Build, c: Config, userId: int, ev: Event, gw: GatewayResult)
    ensures Run(b, c, userId, [ev], gw).final == Dispatch(b, c, userId, ev, gw).after
    ensures var t := Dispatch(b, c, userId, ev, gw);
            Run(b, c, userId, [ev], gw).calls == if t.call.Some? then [t.call.value] else []
  {
    assert [ev][1..] == [];
  }

  /**
   * `/simulate`, then `/setkey`, then `/cancel`: the cancel goes to the
   * onboarding conversation, and the deploy conversation still waits for a
   * name. Its session keeps the entry flag only in the corrected build.
   */
  lemma SimulateThenAbandonedSetKey(b: Build, c: Config, userId: int, gw: GatewayResult)
    requires HasUsableKey(c.keys, userId) && c.onboard == End && c.deploy == End
    ensures var o := Run(b, c, userId, [Command(Simulate), Command(SetKey), Command(Cancel)], gw);
            o.calls == [] && o.final.keys == c.keys && o.final.onboard == End && o.final.deploy == DeployName
            && o.final.userData == if b == AsWritten then map[] else map["simulate" := Bool(true)]
  {
    var c1 := c.(userData := map["simulate" := Bool(true)], deploy := DeployName);
    var c2 := c1.(onboard := AwaitApiKey);
    var c3 := c2.(onboard := End, userData := if b == AsWritten then map[] else c1.userData);
    assert Dispatch(b, c, userId, Command(Simulate), gw) == Transition(c1, None);
    assert Dispatch(b, c1, userId, Command(SetKey), gw) == Transition(c2, None);
    assert Dispatch(b, c2, userId, Command(Cancel), gw) == Transition(c3, None);
    RunOne(b, c, userId, Command(Simulate), gw);
    RunOne(b, c1, userId, Command(SetKey), gw);
    RunOne(b, c2, userId, Command(Cancel), gw);
    RunAppend(b, c, userId, [Command(Simulate)], [Command(SetKey)], gw);
    assert [Command(Simulate)] + [Command(SetKey)] == [Command(Simulate), Command(SetKey)];
    RunAppend(b, c, userId, [Command(Simulate), Command(SetKey)], [Command(Cancel)], gw);
    assert [Command(Simulate), Command(SetKey)] + [Command(Cancel)] == [Command(Simulate), Command(SetKey), Command(Cancel)];
  }

  /** One answer in a collect state, with onboarding idle: the flow moves on, nothing is sent, the flag is untouched. */
  lemma AnswerStep(b: Build, c: Config, userId: int, text: string, gw: GatewayResult)
    requires c.onboard == End && 1 <= Step(c.deploy) <= 3
    ensures var o := Run(b, c, userId, [Message(text)], gw);
            o.calls == [] && o.final.keys == c.keys && o.final.onboard == End
            && (c.deploy == DeployName ==> o.final.deploy == DeploySymbol)
            && (c.deploy == DeploySymbol ==> o.final.deploy == DeployDesc)
            && (c.deploy == DeployDesc ==> o.final.deploy == DeployImage)
            && GetOr(o.final.userData, "simulate", Bool(false)) == GetOr(c.userData, "simulate", Bool(false))
            && ("name" in c.userData || c.deploy == DeployName ==> "name" in o.final.userData)
            && ("symbol" in c.userData || c.deploy == DeploySymbol ==> "symbol" in o.final.userData)
            && ("desc" in c.userData || c.deploy == DeployDesc ==> "desc" in o.final.userData)
  {
    RunOne(b, c, userId, Message(text), gw);
    RoutedToDeploy(b, c, userId, text, gw);
    var d := c.userData;
    var t := DeployStep(c, userId, Message(text), gw);
    if c.deploy == DeployName {
      assert t == Apply(c, NameStep(d, text));
      KeyStored(d, "name", Str(Strip(text)));
    } else if c.deploy == DeploySymbol {
      assert t == Apply(c, SymbolStep(d, text));
      KeyStored(d, "symbol", Optional(text, true));
    } else {
      assert t == Apply(c, DescStep(d, text));
      KeyStored(d, "desc", Optional(text, false));
    }
  }

  /** Storing a field other than the entry flag keeps the flag as `d.get` reads it, and keeps the other fields. */
  lemma KeyStored(d: Dict, k: string, v: Value)
    requires k != "simulate"
    ensures GetOr(d[k := v], "simulate", Bool(false)) == GetOr(d, "simulate", Bool(false))
    ensures k in d[k := v]
    ensures ("name" in d ==> "name" in d[k := v]) && ("symbol" in d ==> "symbol" in d[k := v])
            && ("desc" in d ==> "desc" in d[k := v])
  {
  }

  /** The image answer, once name, symbol and description are stored, moves to confirmation. */
  lemma ImageAnswer(b: Build, c: Config, userId: int, text: string, gw: GatewayResult)
    requires c.onboard == End && c.deploy == DeployImage && SummaryReads(c.userData)
    ensures var o := Run(b, c, userId, [Message(text)], gw);
            o.calls == [] && o.final.keys == c.keys && o.final.onboard == End && o.final.deploy == DeployConfirm
            && "name" in o.final.userData
            && GetOr(o.final.userData, "simulate", Bool(false)) == GetOr(c.userData, "simulate", Bool(false))
  {
    RunOne(b, c, userId, Message(text), gw);
    RoutedToDeploy(b, c, userId, text, gw);
    assert DeployStep(c, userId, Message(text), gw) == Apply(c, ImageStep(c.userData, text));
    KeyStored(c.userData, "image", Optional(text, false));
  }

  /** Name and symbol: from the name state to the description state. */
  lemma FirstTwoAnswers(b: Build, c: Config, userId: int, name: string, symbol: string, gw: GatewayResult)
    requires c.onboard == End && c.deploy == DeployName
    ensures var o := Run(b, c, userId, [Message(name), Message(symbol)], gw);
            o.calls == [] && o.final.keys == c.keys && o.final.onboard == End && o.final.deploy == DeployDesc
            && "name" in o.final.userData && "symbol" in o.final.userData
            && GetOr(o.final.userData, "simulate", Bool(false)) == GetOr(c.userData, "simulate", Bool(false))
  {
    var c1 := Run(b, c, userId, [Message(name)], gw).final;
    AnswerStep(b, c, userId, name, gw);
    AnswerStep(b, c1, userId, symbol, gw);
    RunAppend(b, c, userId, [Message(name)], [Message(symbol)], gw);
    assert [Message(name)] + [Message(symbol)] == [Message(name), Message(symbol)];
  }

  /** Description and image: from the description state to confirmation. */
  lemma LastTwoAnswers(b: Build, c: Config, userId: int, desc: string, image: string, gw: GatewayResult)
    requires c.onboard == End && c.deploy == DeployDesc && "name" in c.userData && "symbol" in c.userData
    ensures var o := Run(b, c, userId, [Message(desc), Message(image)], gw);
            o.calls == [] && o.final.keys == c.keys && o.final.onboard == End && o.final.deploy == DeployConfirm
            && "name" in o.final.userData
            && GetOr(o.final.userData, "simulate", Bool(false)) == GetOr(c.userData, "simulate", Bool(false))
  {
    var c1 := Run(b, c, userId, [Message(desc)], gw).final;
    AnswerStep(b, c, userId, desc, gw);
    ImageAnswer(b, c1, userId, image, gw);
    RunAppend(b, c, userId, [Message(desc)], [Message(image)], gw);
    assert [Message(desc)] + [Message(image)] == [Message(desc), Message(image)];
  }

  /**
   * From the name state with onboarding idle, any four answers reach
   * confirmation without a request, the name stored and the flag as it was.
   */
  lemma AnswersReachConfirm(b: Build, c: Config, userId: int, name: string, symbol: string, desc: string, image: string,
                            gw: GatewayResult)
    requires c.onboard == End && c.deploy == DeployName
    ensures var o := Run(b, c, userId, [Message(name), Message(symbol), Message(desc), Message(image)], gw);
            o.calls == [] && o.final.keys == c.keys && o.final.onboard == End && o.final.deploy == DeployConfirm
            && "name" in o.final.userData
            && GetOr(o.final.userData, "simulate", Bool(false)) == GetOr(c.userData, "simulate", Bool(false))
  {
    FirstTwoAnswers(b, c, userId, name, symbol, gw);
    LastTwoAnswers(b, Run(b, c, userId, [Message(name), Message(symbol)], gw).final, userId, desc, image, gw);
    RunAppend(b, c, userId, [Message(name), Message(symbol)], [Message(desc), Message(image)], gw);
    assert [Message(name), Message(symbol)] + [Message(desc), Message(image)]
        == [Message(name), Message(symbol), Message(desc), Message(image)];
  }

  /** The confirm word at confirmation sends exactly one deploy request, whose `simulateOnly` is `d.get("simulate", False)`. */
  lemma ConfirmSubmits(b: Build, c: Config, userId: int, text: string, gw: GatewayResult)
    requires c.onboard == End && c.deploy == DeployConfirm && "name" in c.userData && IsConfirm(text)
    ensures var o := Run(b, c, userId, [Message(text)], gw);
            |o.calls| == 1 && o.calls[0].endpoint == DeployEndpoint && "simulateOnly" in o.calls[0].payload
            && o.calls[0].payload["simulateOnly"] == GetOr(c.userData, "simulate", Bool(false))
  {
    RunOne(b, c, userId, Message(text), gw);
    RoutedToDeploy(b, c, userId, text, gw);
    assert DeployStep(c, userId, Message(text), gw)
        == Apply(c, ConfirmStep(c.keys, userId, c.userData, text, gw));
  }

  /** `/simulate`, `/setkey`, `/cancel`, four answers and the confirm word. */
  function InterruptedSimulation(name: string, symbol: string, desc: string, image: string, confirm: string): seq<Event> {
    [Command(Simulate), Command(SetKey), Command(Cancel),
     Message(name), Message(symbol), Message(desc), Message(image), Message(confirm)]
  }

  /**
   * The one request the interrupted simulation sends, with its `simulateOnly`
   * flag: `false` (a real deploy) as written, `true` with the corrected
   * `/cancel`.
   */
  lemma InterruptedSimulationSubmits(b: Build, c: Config, userId: int,
                                     name: string, symbol: string, desc: string, image: string, confirm: string,
                                     gw: GatewayResult)
    requires HasUsableKey(c.keys, userId) && c.onboard == End && c.deploy == End && IsConfirm(confirm)
    ensures var o := Run(b, c, userId, InterruptedSimulation(name, symbol, desc, image, confirm), gw);
            |o.calls| == 1 && o.calls[0].endpoint == DeployEndpoint && "simulateOnly" in o.calls[0].payload
            && o.calls[0].payload["simulateOnly"] == Bool(b == Corrected)
  {
    var entry := [Command(Simulate), Command(SetKey), Command(Cancel)];
    var rest := [Message(name), Message(symbol), Message(desc), Message(image), Message(confirm)];
    EntryThenAnswersSubmit(b, c, userId, entry, rest, name, symbol, desc, image, confirm, gw);
    assert entry + rest == InterruptedSimulation(name, symbol, desc, image, confirm);
  }

  /** `InterruptedSimulationSubmits` for the two halves of the event sequence. */
  lemma EntryThenAnswersSubmit(b: Build, c: Config, userId: int, entry: seq<Event>, rest: seq<Event>,
                               name: string, symbol: string, desc: string, image: string, confirm: string,
                               gw: GatewayResult)
    requires HasUsableKey(c.keys, userId) && c.onboard == End && c.deploy == End && IsConfirm(confirm)
    requires entry == [Command(Simulate), Command(SetKey), Command(Cancel)]
    requires rest == [Message(name), Message(symbol), Message(desc), Message(image), Message(confirm)]
    ensures var o := Run(b, c, userId, entry + rest, gw);
            |o.calls| == 1 && o.calls[0].endpoint == DeployEndpoint && "simulateOnly" in o.calls[0].payload
            && o.calls[0].payload["simulateOnly"] == Bool(b == Corrected)
  {
    var c3 := Run(b, c, userId, entry, gw).final;
    SimulateThenAbandonedSetKey(b, c, userId, gw);
    AnswersThenConfirm(b, c3, userId, name, symbol, desc, image, confirm, gw);
    RunAppend(b, c, userId, entry, rest, gw);
  }

  /** From the name state with onboarding idle, four answers and the confirm word send one deploy request carrying the flag. */
  lemma AnswersThenConfirm(b: Build, c: Config, userId: int,
                           name: string, symbol: string, desc: string, image: string, confirm: string,
                           gw: GatewayResult)
    requires c.onboard == End && c.deploy == DeployName && IsConfirm(confirm)
    ensures var o := Run(b, c, userId, [Message(name), Message(symbol), Message(desc), Message(image), Message(confirm)], gw);
            |o.calls| == 1 && o.calls[0].endpoint == DeployEndpoint && "simulateOnly" in o.calls[0].payload
            && o.calls[0].payload["simulateOnly"] == GetOr(c.userData, "simulate", Bool(false))
  {
    var answers := [Message(name), Message(symbol), Message(desc), Message(image)];
    AnswersReachConfirm(b, c, userId, name, symbol, desc, image, gw);
    ConfirmSubmits(b, Run(b, c, userId, answers, gw).final, userId, confirm, gw);
    RunAppend(b, c, userId, answers, [Message(confirm)], gw);
    assert answers + [Message(confirm)] == [Message(name), Message(symbol), Message(desc), Message(image), Message(confirm)];
  }

  /** As written, the interrupted simulation deploys for real. */
  lemma InterruptedSimulationDeploysForReal(c: Config, userId: int,
                                            name: string, symbol: string, desc: string, image: string, confirm: string,
                                            gw: GatewayResult)
    requires HasUsableKey(c.keys, userId) && c.onboard == End && c.deploy == End && IsConfirm(confirm)
    ensures var o := Run(AsWritten, c, userId, InterruptedSimulation(name, symbol, desc, image, confirm), gw);
            |o.calls| == 1 && "simulateOnly" in o.calls[0].payload && o.calls[0].payload["simulateOnly"] == Bool(false)
  {
    InterruptedSimulationSubmits(AsWritten, c, userId, name, symbol, desc, image, confirm, gw);
  }

  /**
   * With the corrected `/cancel`, the interrupted simulation stays a
   * simulation, when all its events come from one chat (the model holds one
   * chat per user).
   */
  lemma InterruptedSimulationStaysSimulated(c: Config, userId: int,
                                            name: string, symbol: string, desc: string, image: string, confirm: string,
                                            gw: GatewayResult)
    requires HasUsableKey(c.keys, userId) && c.onboard == End && c.deploy == End && IsConfirm(confirm)
    ensures var o := Run(Corrected, c, userId, InterruptedSimulation(name, symbol, desc, image, confirm), gw);
            |o.calls| == 1 && "simulateOnly" in o.calls[0].payload && o.calls[0].payload["simulateOnly"] == Bool(true)
  {
    InterruptedSimulationSubmits(Corrected, c, userId, name, symbol, desc, image, confirm, gw);
  }
}
