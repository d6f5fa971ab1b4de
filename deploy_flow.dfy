/**
 * The deploy and simulate conversation, one function per handler: each takes
 * the user's session dictionary (`ctx.user_data`) and the message text and
 * gives the new dictionary, the state the handler returns (`None` when the
 * handler raises, which leaves the conversation where it was) and the
 * gateway request it sends.
 */
module DeployFlow {
  import opened Wrappers
  import opened Json
  import opened PyStr
  import opened Bankr
  import opened Credentials
  import opened Dialog

  const SkipWord := "skip"
  const ConfirmWord := "confirm"

  /** The text means "skip": `text.strip().lower() == "skip"`. */
  predicate IsSkip(text: string) {
    Lower(Strip(text)) == SkipWord
  }

  /** The text confirms the deploy: `text.strip().lower() == "confirm"`. */
  predicate IsConfirm(text: string) {
    Lower(Strip(text)) == ConfirmWord
  }

  /** What a handler did to the session, where the conversation goes, and what it sent. */
  datatype Effect = Effect(userData: Dict, next: Option<State>, call: Option<Request>)

  /**
   * The value stored for an optional field (symbol, description, image):
   * `None` for the skip word, the stripped text otherwise, upper-cased for
   * the symbol.
   */
  function Optional(text: string, upper: bool): (v: Value)
    ensures v.Null? || v.Str?
  {
    var val := Strip(text);
    if Lower(val) == SkipWord then Null else Str(if upper then Upper(val) else val)
  }

  /**
   * Surrounding whitespace never matters: the skip word in any letter case
   * gives `None`, and any other text is stored as typed (upper-cased for the
   * symbol) without the whitespace.
   */
  lemma OptionalPadded(pre: string, t: string, post: string, upper: bool)
    requires AllSpace(pre) && AllSpace(post) && EdgeClean(t)
    ensures Optional(pre + t + post, upper)
         == if Lower(t) == SkipWord then Null else Str(if upper then Upper(t) else t)
  {
    StripPadded(pre, t, post);
  }

  /**
   * Only the word itself confirms, in any letter case and with any
   * surrounding whitespace.
   */
  lemma ConfirmPadded(pre: string, t: string, post: string)
    requires AllSpace(pre) && AllSpace(post) && EdgeClean(t)
    ensures IsConfirm(pre + t + post) <==> Lower(t) == ConfirmWord
  {
    StripPadded(pre, t, post);
  }

  /** A stored optional field never has whitespace at either end, and a stored symbol has no lower-case letter. */
  lemma OptionalIsClean(text: string, upper: bool)
    ensures var v := Optional(text, upper);
            v.Str? ==> EdgeClean(v.s) && (upper ==> forall i :: 0 <= i < |v.s| ==> !('a' <= v.s[i] <= 'z'))
  {
    CaseMappingKeepsEdges(Strip(text));
    UpperHasNoLowerCase(Strip(text));
  }

  /**
   * `deploy_start` / `simulate_start`: without a usable key the flow ends at
   * once and nothing changes; with one the session restarts holding only
   * the entry flag, and the next state asks for the name.
   */
  function Enter(keys: map<int, string>, userId: int, d: Dict, simulate: bool): (e: Effect)
    ensures e.call.None?
    ensures e.next == Some(DeployName) <==> HasUsableKey(keys, userId)
    ensures e.next == Some(DeployName) ==> e.userData == map["simulate" := Bool(simulate)]
    ensures e.next != Some(DeployName) ==> e.next == Some(End) && e.userData == d
  {
    if !HasUsableKey(keys, userId) then Effect(d, Some(End), None)
    else Effect(map["simulate" := Bool(simulate)], Some(DeployName), None)
  }

  /**
   * `deploy_name`: no input is refused. The name is stored without its
   * surrounding whitespace, the rest of the session is kept, nothing is sent
   * and the flow asks for the symbol.
   */
  function NameStep(d: Dict, text: string): (e: Effect)
    ensures e.next == Some(DeploySymbol) && e.call.None?
    ensures e.userData.Keys == d.Keys + {"name"} && e.userData - {"name"} == d - {"name"}
    ensures e.userData["name"] == Str(Strip(text)) && EdgeClean(e.userData["name"].s)
  {
    Effect(d["name" := Str(Strip(text))], Some(DeploySymbol), None)
  }

  /** `deploy_symbol`: the symbol is stored as `Optional` gives it, the rest of the session is kept. */
  function SymbolStep(d: Dict, text: string): (e: Effect)
    ensures e.next == Some(DeployDesc) && e.call.None?
    ensures e.userData.Keys == d.Keys + {"symbol"} && e.userData - {"symbol"} == d - {"symbol"}
    ensures e.userData["symbol"] == Optional(text, true)
  {
    Effect(d["symbol" := Optional(text, true)], Some(DeployDesc), None)
  }

  /** `deploy_desc`: the description is stored as `Optional` gives it, the rest of the session is kept. */
  function DescStep(d: Dict, text: string): (e: Effect)
    ensures e.next == Some(DeployImage) && e.call.None?
    ensures e.userData.Keys == d.Keys + {"desc"} && e.userData - {"desc"} == d - {"desc"}
    ensures e.userData["desc"] == Optional(text, false)
  {
    Effect(d["desc" := Optional(text, false)], Some(DeployImage), None)
  }

  /** The summary shown after the image reads `name`, `symbol` and `desc` with `d[...]`. */
  predicate SummaryReads(d: Dict) {
    "name" in d && "symbol" in d && "desc" in d
  }

  /** `deploy_image`: stores the image, then raises if the summary cannot read its fields. */
  function ImageStep(d: Dict, text: string): (e: Effect)
    ensures e.call.None? && e.userData == d["image" := Optional(text, false)]
    ensures e.next.Some? <==> SummaryReads(d)
    ensures e.next.Some? ==> e.next.value == DeployConfirm
  {
    var d' := d["image" := Optional(text, false)];
    Effect(d', if SummaryReads(d') then Some(DeployConfirm) else None, None)
  }

  /** The keys a deploy payload may hold. */
  const PayloadKeys: set<string> := {"tokenName", "simulateOnly", "tokenSymbol", "description", "image"}

  /**
   * The deploy request assembled at confirmation (`None`: `d["name"]` raises).
   * `tokenName` and `simulateOnly` are always present, `simulateOnly` being
   * the entry flag (`False` when absent); each optional field appears exactly
   * when the session holds a truthy value for it, so `None` and "" are left
   * out, and then carries that value.
   */
  function BuildPayload(d: Dict): (r: Option<Dict>)
    ensures r.Some? <==> "name" in d
    ensures r.Some? ==> r.value.Keys <= PayloadKeys
    ensures r.Some? ==> "tokenName" in r.value && r.value["tokenName"] == d["name"]
    ensures r.Some? ==> "simulateOnly" in r.value && r.value["simulateOnly"] == GetOr(d, "simulate", Bool(false))
    ensures r.Some? ==> (("tokenSymbol" in r.value <==> TruthyAt(d, "symbol"))
                         && ("tokenSymbol" in r.value ==> r.value["tokenSymbol"] == d["symbol"]))
    ensures r.Some? ==> (("description" in r.value <==> TruthyAt(d, "desc"))
                         && ("description" in r.value ==> r.value["description"] == d["desc"]))
    ensures r.Some? ==> (("image" in r.value <==> TruthyAt(d, "image"))
                         && ("image" in r.value ==> r.value["image"] == d["image"]))
  {
    if "name" !in d then None
    else
      var base := map["tokenName" := d["name"], "simulateOnly" := GetOr(d, "simulate", Bool(false))];
      var withSymbol := if TruthyAt(d, "symbol") then base["tokenSymbol" := d["symbol"]] else base;
      var withDesc := if TruthyAt(d, "desc") then withSymbol["description" := d["desc"]] else withSymbol;
      Some(if TruthyAt(d, "image") then withDesc["image" := d["image"]] else withDesc)
  }

  /**
   * `deploy_confirm`: `gw` is what the gateway answers if the request is
   * sent. Anything but "confirm" clears the session and ends the flow without
   * a request. On "confirm" the request carries the payload and the user's
   * stored key; unless building the payload or rendering the answer raises,
   * the session is cleared and the flow ends whatever the gateway answered.
   */
  function ConfirmStep(keys: map<int, string>, userId: int, d: Dict, text: string, gw: GatewayResult): (e: Effect)
    ensures !IsConfirm(text) ==> e == Effect(map[], Some(End), None)
    ensures e.call.Some? <==> IsConfirm(text) && "name" in d
    ensures e.call.Some? ==> (e.call.value.endpoint == DeployEndpoint
                              && e.call.value.apiKey == Lookup(keys, userId)
                              && Some(e.call.value.payload) == BuildPayload(d))
    ensures e.next == Some(End) <==> !IsConfirm(text) || ("name" in d && !RenderRaises(gw))
    ensures e.next == Some(End) ==> e.userData == map[]
    ensures e.next != Some(End) ==> e.next.None? && e.userData == d
  {
    if Lower(Strip(text)) != ConfirmWord then Effect(map[], Some(End), None)
    else
      match BuildPayload(d)
      case None => Effect(d, None, None)
      case Some(payload) =>
        var call := Some(Post(DeployEndpoint, payload, Lookup(keys, userId)));
        if RenderRaises(gw) then Effect(d, None, call) else Effect(map[], Some(End), call)
  }

  /** `deploy_cancel`: the session is cleared and the conversation ends. */
  function CancelStep(d: Dict): Effect {
    Effect(map[], Some(End), None)
  }

  /** An optional field ends up in the payload exactly when it was neither skipped nor blank. */
  lemma OptionalTruthy(text: string, upper: bool)
    ensures Truthy(Optional(text, upper)) <==> !IsSkip(text) && Strip(text) != []
  {
    assert |Upper(Strip(text))| == |Strip(text)|;
  }

  /** The session holds the given entry flag and answers. */
  predicate HoldsValues(d: Dict, flag: Value, name: Value, symbol: Value, desc: Value, image: Value) {
    "simulate" in d && d["simulate"] == flag
    && "name" in d && d["name"] == name
    && "symbol" in d && d["symbol"] == symbol
    && "desc" in d && d["desc"] == desc
    && "image" in d && d["image"] == image
  }

  /** The session holds the entry flag and the four answers, normalised. */
  predicate HoldsAnswers(d: Dict, simulate: bool, name: string, symbol: string, desc: string, image: string) {
    HoldsValues(d, Bool(simulate), Str(Strip(name)), Optional(symbol, true), Optional(desc, false), Optional(image, false))
  }

  /** Storing the five fields one after another, the session holds all of them. */
  lemma StoredInTurn(flag: Value, name: Value, symbol: Value, desc: Value, image: Value)
    ensures var d3 := map["simulate" := flag]["name" := name]["symbol" := symbol]["desc" := desc];
            SummaryReads(d3) && HoldsValues(d3["image" := image], flag, name, symbol, desc, image)
  {
  }

  /**
   * With a usable key, entry and any four answers reach confirmation (no
   * answer is refused), holding the entry flag and the four normalised
   * answers, whatever the session held before.
   */
  lemma CollectReachesConfirm(keys: map<int, string>, userId: int, d: Dict, simulate: bool,
                              name: string, symbol: string, desc: string, image: string)
    requires HasUsableKey(keys, userId)
    ensures var e0 := Enter(keys, userId, d, simulate);
            var e1 := NameStep(e0.userData, name);
            var e2 := SymbolStep(e1.userData, symbol);
            var e3 := DescStep(e2.userData, desc);
            var e4 := ImageStep(e3.userData, image);
            e0.next == Some(DeployName) && e1.next == Some(DeploySymbol) && e2.next == Some(DeployDesc)
            && e3.next == Some(DeployImage) && e4.next == Some(DeployConfirm)
            && HoldsAnswers(e4.userData, simulate, name, symbol, desc, image)
  {
    StoredInTurn(Bool(simulate), Str(Strip(name)), Optional(symbol, true), Optional(desc, false), Optional(image, false));
  }

  /**
   * The payload of a session holding the answers holds the stripped name, the
   * entry flag, and each optional field exactly when it was neither skipped
   * nor blank: the symbol upper-cased, the others as typed.
   */
  lemma CollectedPayload(d: Dict, simulate: bool, name: string, symbol: string, desc: string, image: string)
    requires HoldsAnswers(d, simulate, name, symbol, desc, image)
    ensures var p := BuildPayload(d);
            p.Some?
            && p.value["tokenName"] == Str(Strip(name)) && p.value["simulateOnly"] == Bool(simulate)
            && ("tokenSymbol" in p.value <==> !IsSkip(symbol) && Strip(symbol) != [])
            && ("tokenSymbol" in p.value ==> p.value["tokenSymbol"] == Str(Upper(Strip(symbol))))
            && ("description" in p.value <==> !IsSkip(desc) && Strip(desc) != [])
            && ("description" in p.value ==> p.value["description"] == Str(Strip(desc)))
            && ("image" in p.value <==> !IsSkip(image) && Strip(image) != [])
            && ("image" in p.value ==> p.value["image"] == Str(Strip(image)))
  {
    OptionalTruthy(symbol, true);
    OptionalTruthy(desc, false);
    OptionalTruthy(image, false);
  }

  /**
   * Skipping every optional field leaves a payload of just the name and the
   * flag, e.g. `{"tokenName": "Claw", "simulateOnly": False}` for `/deploy`,
   * "Claw" and three "skip" answers.
   */
  lemma AllSkippedPayload(d: Dict, simulate: bool, name: string, symbol: string, desc: string, image: string)
    requires HoldsAnswers(d, simulate, name, symbol, desc, image)
    requires IsSkip(symbol) && IsSkip(desc) && IsSkip(image)
    ensures BuildPayload(d) == Some(map["tokenName" := Str(Strip(name)), "simulateOnly" := Bool(simulate)])
  {
    CollectedPayload(d, simulate, name, symbol, desc, image);
    var p := BuildPayload(d).value;
    TwoKeyPayload(p, Str(Strip(name)), Bool(simulate));
  }

  /** A payload holding neither optional key is exactly its name and flag. */
  lemma TwoKeyPayload(p: Dict, name: Value, flag: Value)
    requires p.Keys <= PayloadKeys
    requires "tokenName" in p && p["tokenName"] == name && "simulateOnly" in p && p["simulateOnly"] == flag
    requires "tokenSymbol" !in p && "description" !in p && "image" !in p
    ensures p == map["tokenName" := name, "simulateOnly" := flag]
  {
    assert p.Keys == {"tokenName", "simulateOnly"};
  }
}
