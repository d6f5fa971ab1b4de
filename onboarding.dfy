/**
 * Onboarding: `/start`, `/setkey` and the `AWAIT_API_KEY` step that checks
 * a submitted Bankr API key and stores it.
 */
module Onboarding {
  import opened Wrappers
  import opened Json
  import opened PyStr
  import opened Bankr
  import opened Credentials
  import opened Dialog

  const KeyPrefix := "bk_"
  const MinKeyLength := 10

  /** The format check on the stripped key. */
  predicate KeyFormatOk(apiKey: string)
    ensures KeyFormatOk(apiKey) ==> apiKey != ""
  {
    StartsWith(apiKey, KeyPrefix) && |apiKey| >= MinKeyLength
  }

  /** The simulated deploy sent to verify a key. */
  function ProbeRequest(apiKey: string): Request {
    Post(DeployEndpoint, map["tokenName" := Str("test"), "simulateOnly" := Bool(true)], Some(apiKey))
  }

  /** `start`: a user with a usable key is done, any other is asked for one. */
  function StartNext(keys: map<int, string>, userId: int): State {
    if HasUsableKey(keys, userId) then End else AwaitApiKey
  }

  /** The store after a key step, the state it returns and the probe it sent. */
  datatype KeyEffect = KeyEffect(keys: map<int, string>, next: State, call: Option<Request>)

  /**
   * `receive_api_key`: `probe` is what the gateway answers if the probe is
   * sent. The key is stored, and the conversation ends, exactly when its
   * stripped form passes the format check and the probe is not an
   * authorization rejection; otherwise the store is untouched and the step
   * stays at `AwaitApiKey`. The probe is sent exactly when the format check
   * passes.
   */
  function ReceiveKey(keys: map<int, string>, userId: int, text: string, probe: GatewayResult): (e: KeyEffect)
    ensures e.call.Some? <==> KeyFormatOk(Strip(text))
    ensures e.call.Some? ==> e.call.value == ProbeRequest(Strip(text))
    ensures e.next == End <==> KeyFormatOk(Strip(text)) && !IsAuthRejection(probe)
    ensures e.next == End ==> e.keys == keys[userId := Strip(text)]
    ensures e.next != End ==> e.next == AwaitApiKey && e.keys == keys
  {
    var apiKey := Strip(text);
    if !KeyFormatOk(apiKey) then KeyEffect(keys, AwaitApiKey, None)
    else if IsAuthRejection(probe) then KeyEffect(keys, AwaitApiKey, Some(ProbeRequest(apiKey)))
    else KeyEffect(keys[userId := apiKey], End, Some(ProbeRequest(apiKey)))
  }

  /** Every key the store receives from onboarding is well formed and has no surrounding whitespace. */
  lemma ReceiveKeyKeepsStoreWellFormed(keys: map<int, string>, userId: int, text: string, probe: GatewayResult)
    requires forall u :: u in keys ==> KeyFormatOk(keys[u]) && EdgeClean(keys[u])
    ensures var e := ReceiveKey(keys, userId, text, probe);
            forall u :: u in e.keys ==> KeyFormatOk(e.keys[u]) && EdgeClean(e.keys[u])
  {
  }

  /** Once onboarding stores a key, `/start` finds it usable and ends at once. */
  lemma StoredKeyFinishesStart(keys: map<int, string>, userId: int, text: string, probe: GatewayResult)
    ensures var e := ReceiveKey(keys, userId, text, probe);
            e.next == End ==> HasUsableKey(e.keys, userId) && StartNext(e.keys, userId) == End
  {
  }

  /** A short key such as "abc" is refused without a probe and without touching the store. */
  lemma ShortKeyRefused(keys: map<int, string>, userId: int, probe: GatewayResult)
    ensures ReceiveKey(keys, userId, "abc", probe) == KeyEffect(keys, AwaitApiKey, None)
  {
  }

  /** A well-formed key that the probe rejects with "Unauthorized" is not stored. */
  lemma UnauthorizedKeyRefused(keys: map<int, string>, userId: int)
    ensures var e := ReceiveKey(keys, userId, " bk_1234567890 ", Err("Unauthorized"));
            e.next == AwaitApiKey && e.keys == keys && e.call == Some(ProbeRequest("bk_1234567890"))
  {
    SampleKeyAccepted();
    assert " " + SampleKey + " " == " bk_1234567890 ";
    StripPadded(" ", SampleKey, " ");
    UnauthorizedIsRejection();
  }

  /** Any answer to the probe other than an authorization rejection (here a timeout) stores the key. */
  lemma TimeoutStillStoresKey(keys: map<int, string>, userId: int)
    ensures var e := ReceiveKey(keys, userId, "bk_1234567890", Err("Connection timed out"));
            e.next == End && e.keys == keys[userId := "bk_1234567890"]
  {
    SampleKeyAccepted();
    assert [] + SampleKey + [] == SampleKey;
    StripPadded([], SampleKey, []);
    TimeoutIsNoRejection();
  }

  const SampleKey := "bk_1234567890"

  lemma SampleKeyAccepted()
    ensures KeyFormatOk(SampleKey) && EdgeClean(SampleKey)
  {
    assert SampleKey[..3] == "bk_";
  }

  lemma UnauthorizedIsRejection()
    ensures IsAuthRejection(Err("Unauthorized"))
  {
    var m := "Unauthorized";
    assert m[2..6] == "auth";
    MentionsAuthAt(m, 2);
  }

  /** A text holding "auth" in any letter case mentions it once lower-cased. */
  lemma MentionsAuthAt(m: string, i: nat)
    requires i + 4 <= |m| && Lower(m[i..i + 4]) == "auth"
    ensures Contains(Lower(m), "auth")
  {
    var l := Lower(m);
    var w := m[i..i + 4];
    forall k | 0 <= k < 4
      ensures l[i..][..4][k] == "auth"[k]
    {
      assert Lower(w)[k] == LowerChar(w[k]);
      assert w[k] == m[i + k];
    }
    assert l[i..][..4] == "auth";
  }

  lemma TimeoutIsNoRejection()
    ensures !IsAuthRejection(Err("Connection timed out"))
  {
    var m := "Connection timed out";
    assert forall k :: 0 <= k < |m| ==> m[k] != 'a' && m[k] != 'A';
    NoLetterANoAuth(m);
  }

  /** A text without the letter `a` in either case never mentions "auth", whatever its case. */
  lemma NoLetterANoAuth(m: string)
    requires forall k :: 0 <= k < |m| ==> m[k] != 'a' && m[k] != 'A'
    ensures !Contains(Lower(m), "auth")
  {
    AbsentFirstChar(Lower(m), "auth");
  }
}
