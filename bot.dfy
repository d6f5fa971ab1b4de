/**
 * One user's chat with the bot, as the running application holds it: the
 * session dictionary (`ctx.user_data`) that both conversations share, the
 * state each conversation is in, and the credential store every user shares.
 * Each handler updates these in place, in the order the Python handler does;
 * `Handle` routes an event as the handler table in `main` does and records
 * the state the chosen handler returns. The conversation functions in
 * `DeployFlow`, `Onboarding` and `Conversations` are the specification each
 * method is proved against. `/cancel` during onboarding follows the
 * corrected build and leaves the session alone.
 */
module Bot {
  import opened Wrappers
  import opened Json
  import opened PyStr
  import opened Bankr
  import opened Credentials
  import opened Dialog
  import opened Onboarding
  import opened DeployFlow
  import opened Conversations

  class UserChat {
    /** `update.effective_user.id`. */
    const userId: int
    /** The keys file, shared with every other user's chat. */
    const store: Store
    /** `ctx.user_data`. */
    var userData: Dict
    /** The onboarding conversation's state (`End` when not in progress). */
    var onboard: State
    /** The deploy conversation's state (`End` when not in progress). */
    var deploy: State

    ghost predicate Valid()
      reads this, store
    {
      store.Valid()
    }

    /** The chat as the conversation model sees it. */
    function Snapshot(): Config
      reads this, store
    {
      Config(store.keys, userData, onboard, deploy)
    }

    /** A user's first event: no session, no conversation in progress. */
    constructor (userId: int, store: Store)
      requires store.Valid()
      ensures Valid()
      ensures this.userId == userId && this.store == store
      ensures userData == map[] && onboard == End && deploy == End
    {
      this.userId := userId;
      this.store := store;
      userData := map[];
      onboard := End;
      deploy := End;
    }

    /** `require_key`: the stored key when it is usable, `None` (the user is told to run /setkey) otherwise. */
    method RequireKey() returns (key: Option<string>)
      requires Valid()
      ensures key.Some? <==> HasUsableKey(store.keys, userId)
      ensures key.Some? ==> key == Lookup(store.keys, userId)
    {
      key := store.GetKey(userId);
      if key.Some? && key.value == "" {
        key := None;
      }
    }

    /** `start`: the state it returns. */
    method OnStart() returns (next: State)
      requires Valid()
      ensures next == StartNext(store.keys, userId)
    {
      var existing := store.GetKey(userId);
      if existing.Some? && existing.value != "" {
        next := End;
      } else {
        next := AwaitApiKey;
      }
    }

    /** `receive_api_key`: saves the key when the format and the probe allow it; `probe` is the gateway's answer. */
    method ReceiveApiKey(text: string, probe: GatewayResult) returns (next: State, call: Option<Request>)
      requires Valid()
      modifies store
      ensures Valid()
      ensures var e := ReceiveKey(old(store.keys), userId, text, probe);
              store.keys == e.keys && next == e.next && call == e.call
    {
      var apiKey := Strip(text);
      if !StartsWith(apiKey, KeyPrefix) || |apiKey| < MinKeyLength {
        return AwaitApiKey, None;
      }
      call := Some(Post(DeployEndpoint, map["tokenName" := Str("test"), "simulateOnly" := Bool(true)], Some(apiKey)));
      if IsAuthRejection(probe) {
        return AwaitApiKey, call;
      }
      store.SaveKey(userId, apiKey);
      next := End;
    }

    /** `deploy_start` (`simulate` false) and `simulate_start` (`simulate` true). */
    method DeployStart(simulate: bool) returns (next: State)
      requires Valid()
      modifies this
      ensures Effect(userData, Some(next), None) == Enter(store.keys, userId, old(userData), simulate)
      ensures onboard == old(onboard) && deploy == old(deploy)
    {
      var key := RequireKey();
      if key.None? {
        return End;
      }
      userData := map[];
      userData := userData["simulate" := Bool(simulate)];
      next := DeployName;
    }

    /** `deploy_name`. */
    method DeployNameStep(text: string) returns (next: State)
      modifies this
      ensures Effect(userData, Some(next), None) == NameStep(old(userData), text)
      ensures onboard == old(onboard) && deploy == old(deploy)
    {
      userData := userData["name" := Str(Strip(text))];
      next := DeploySymbol;
    }

    /** `deploy_symbol`. */
    method DeploySymbolStep(text: string) returns (next: State)
      modifies this
      ensures Effect(userData, Some(next), None) == SymbolStep(old(userData), text)
      ensures onboard == old(onboard) && deploy == old(deploy)
    {
      var val := Strip(text);
      userData := userData["symbol" := if Lower(val) == SkipWord then Null else Str(Upper(val))];
      next := DeployDesc;
    }

    /** `deploy_desc`. */
    method DeployDescStep(text: string) returns (next: State)
      modifies this
      ensures Effect(userData, Some(next), None) == DescStep(old(userData), text)
      ensures onboard == old(onboard) && deploy == old(deploy)
    {
      var val := Strip(text);
      userData := userData["desc" := if Lower(val) == SkipWord then Null else Str(val)];
      next := DeployImage;
    }

    /** `deploy_image`: `None` when the summary raises; the image stays stored either way. */
    method DeployImageStep(text: string) returns (next: Option<State>)
      modifies this
      ensures Effect(userData, next, None) == ImageStep(old(userData), text)
      ensures onboard == old(onboard) && deploy == old(deploy)
    {
      var val := Strip(text);
      userData := userData["image" := if Lower(val) == SkipWord then Null else Str(val)];
      if "name" !in userData || "symbol" !in userData || "desc" !in userData {
        return None;
      }
      next := Some(DeployConfirm);
    }

    /**
     * `deploy_confirm`: `gw` is the gateway's answer to the deploy request.
     * `next` is `None` when building the payload or rendering the answer raises.
     */
    method DeployConfirmStep(text: string, gw: GatewayResult) returns (next: Option<State>, call: Option<Request>)
      requires Valid()
      modifies this
      ensures Effect(userData, next, call) == ConfirmStep(store.keys, userId, old(userData), text, gw)
      ensures onboard == old(onboard) && deploy == old(deploy)
    {
      if Lower(Strip(text)) != ConfirmWord {
        userData := map[];
        return Some(End), None;
      }
      var apiKey := store.GetKey(userId);
      if "name" !in userData {
        return None, None;
      }
      var payload := map["tokenName" := userData["name"], "simulateOnly" := GetOr(userData, "simulate", Bool(false))];
      if TruthyAt(userData, "symbol") {
        payload := payload["tokenSymbol" := userData["symbol"]];
      }
      if TruthyAt(userData, "desc") {
        payload := payload["description" := userData["desc"]];
      }
      if TruthyAt(userData, "image") {
        payload := payload["image" := userData["image"]];
      }
      call := Some(Post(DeployEndpoint, payload, apiKey));
      if RenderRaises(gw) {
        return None, call;
      }
      userData := map[];
      next := Some(End);
    }

    /** `deploy_cancel`. */
    method DeployCancel() returns (next: State)
      modifies this
      ensures Effect(userData, Some(next), None) == CancelStep(old(userData))
      ensures onboard == old(onboard) && deploy == old(deploy)
    {
      userData := map[];
      next := End;
    }

    /** The onboarding conversation's event, with the corrected `/cancel`. */
    method HandleOnboard(ev: Event, gw: GatewayResult) returns (call: Option<Request>)
      requires Valid() && OnboardHandles(onboard, ev)
      modifies this, store
      ensures Valid()
      ensures var t := OnboardStep(Corrected, old(Snapshot()), userId, ev, gw);
              Snapshot() == t.after && call == t.call
    {
      match ev
      case Message(text) =>
        var next;
        next, call := ReceiveApiKey(text, gw);
        onboard := next;
      case Command(cmd) =>
        call := None;
        if cmd == Start {
          onboard := OnStart();
        } else if cmd == SetKey {
          onboard := AwaitApiKey;
        } else {
          onboard := End;
        }
    }

    /** The deploy conversation's event. */
    method HandleDeploy(ev: Event, gw: GatewayResult) returns (call: Option<Request>)
      requires Valid() && DeployHandles(deploy, ev)
      modifies this
      ensures Valid()
      ensures var t := DeployStep(old(Snapshot()), userId, ev, gw);
              Snapshot() == t.after && call == t.call
    {
      var next: Option<State>;
      call := None;
      match ev {
        case Command(cmd) =>
          var s;
          if cmd == Deploy {
            s := DeployStart(false);
          } else if cmd == Simulate {
            s := DeployStart(true);
          } else {
            s := DeployCancel();
          }
          next := Some(s);
        case Message(text) =>
          match deploy {
            case DeployName =>
              var s := DeployNameStep(text);
              next := Some(s);
            case DeploySymbol =>
              var s := DeploySymbolStep(text);
              next := Some(s);
            case DeployDesc =>
              var s := DeployDescStep(text);
              next := Some(s);
            case DeployImage =>
              next := DeployImageStep(text);
            case DeployConfirm =>
              next, call := DeployConfirmStep(text, gw);
          }
      }
      if next.Some? {
        deploy := next.value;
      }
    }

    /**
     * One inbound event, routed as the handler table does: the onboarding
     * conversation first, then the deploy conversation; anything else changes
     * nothing here. The new state is the corrected conversation model's.
     */
    method Handle(ev: Event, gw: GatewayResult) returns (call: Option<Request>)
      requires Valid()
      modifies this, store
      ensures Valid()
      ensures var t := Dispatch(Corrected, old(Snapshot()), userId, ev, gw);
              Snapshot() == t.after && call == t.call
      ensures WellFormed(old(Snapshot())) ==> WellFormed(Snapshot())
    {
      if WellFormed(Snapshot()) {
        WellFormedPreserved(Snapshot(), userId, ev, gw);
      }
      if OnboardHandles(onboard, ev) {
        call := HandleOnboard(ev, gw);
      } else if DeployHandles(deploy, ev) {
        call := HandleDeploy(ev, gw);
      } else {
        call := None;
      }
    }
  }
}
