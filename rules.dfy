/** The decision rules of the built-in enrichment plugins, as functions of the
    event and of the configuration they read: default tags and data, bot
    user agents, sessions without a user, the machine user, environment info,
    reference ids and the inline function plugins. */
module Rules {
  import opened Models
  import opened Wildcard
  import opened Registry

  // ---------------------------------------------------------------------
  // Configuration defaults

  /** The event with the default tags added and every default data entry
      added whose key is not already present and matches no exclusion;
      existing data always wins. */
  function ApplyDefaults(ev: Event, defaultTags: set<string>, defaultData: map<string, Value>,
                         exclusions: seq<string>): (r: Event)
    ensures r.eventType == ev.eventType && r.message == ev.message && r.referenceId == ev.referenceId
    ensures r.tags == ev.tags + defaultTags
    ensures forall k :: k in ev.data ==> k in r.data && r.data[k] == ev.data[k]
    ensures forall k :: k in defaultData && !AnyWildcardMatches(k, exclusions) ==> k in r.data
    ensures forall k :: k in r.data && k !in ev.data ==>
              k in defaultData && !AnyWildcardMatches(k, exclusions) && r.data[k] == defaultData[k]
  {
    ev.(tags := ev.tags + defaultTags,
        data := map k | k in ev.data.Keys + defaultData.Keys && (k in ev.data || !AnyWildcardMatches(k, exclusions))
                  :: if k in ev.data then ev.data[k] else defaultData[k])
  }

  /** Applying the defaults a second time changes nothing: no tag or data key
      is ever duplicated and no count grows. */
  lemma DefaultsIdempotent(ev: Event, defaultTags: set<string>, defaultData: map<string, Value>,
                           exclusions: seq<string>)
    ensures var once := ApplyDefaults(ev, defaultTags, defaultData, exclusions);
            ApplyDefaults(once, defaultTags, defaultData, exclusions) == once
  {
    var once := ApplyDefaults(ev, defaultTags, defaultData, exclusions);
    var twice := ApplyDefaults(once, defaultTags, defaultData, exclusions);
    assert twice.data.Keys == once.data.Keys;
    assert twice.data == once.data;
  }

  /** Without default data the defaults only add the default tags. */
  lemma TagsOnlyDefaults(ev: Event, defaultTags: set<string>, exclusions: seq<string>)
    ensures ApplyDefaults(ev, defaultTags, map[], exclusions) == ev.(tags := ev.tags + defaultTags)
  {
    assert ApplyDefaults(ev, defaultTags, map[], exclusions).data == ev.data;
  }

  /** A single default entry under a new key that no exclusion matches is
      added as it is. */
  lemma OneDefaultEntry(ev: Event, defaultTags: set<string>, key: string, value: Value, exclusions: seq<string>)
    requires key !in ev.data && !AnyWildcardMatches(key, exclusions)
    ensures ApplyDefaults(ev, defaultTags, map[key := value], exclusions).data == ev.data[key := value]
  {
  }

  /** Default entries that are all present already or excluded add nothing. */
  lemma NothingNewFromDefaults(ev: Event, defaultTags: set<string>, defaultData: map<string, Value>,
                               exclusions: seq<string>)
    requires forall k :: k in defaultData ==> k in ev.data || AnyWildcardMatches(k, exclusions)
    ensures ApplyDefaults(ev, defaultTags, defaultData, exclusions).data == ev.data
  {
    assert ApplyDefaults(ev, defaultTags, defaultData, exclusions).data.Keys == ev.data.Keys;
  }

  /** "Ignore*" excludes the key "Ignored" and not the key "Message". */
  lemma IgnorePatternExcludesIgnored()
    ensures AnyWildcardMatches("Ignored", ["Ignore*"])
    ensures !AnyWildcardMatches("Message", ["Ignore*"])
  {
    PrefixMatchIff("Ignored", "Ignore");
    PrefixMatchIff("Message", "Ignore");
    assert "Ignore" + "*" == "Ignore*";
    assert Lower("Ignored")[..6] == Lower("Ignore");
    assert Lower("Message")[0] != Lower("Ignore")[0];
    assert ["Ignore*"][0] == "Ignore*";
  }

  // ---------------------------------------------------------------------
  // Bot user agents

  /** Whether the event's request info carries a user agent matching one of
      the bot patterns, ignoring case. */
  predicate IsBotRequest(ev: Event, botPatterns: seq<string>) {
    var request := GetRequestInfo(ev);
    request.Some? && request.value.userAgent.Some?
    && AnyWildcardMatches(request.value.userAgent.value, botPatterns)
  }

  /** With the single pattern "*Bot*", a request is a bot request exactly when
      its user agent contains "bot" in any case. */
  lemma BotPatternIff(ev: Event)
    ensures IsBotRequest(ev, ["*Bot*"]) <==>
              GetRequestInfo(ev).Some? && GetRequestInfo(ev).value.userAgent.Some?
              && exists i :: OccursAt(Lower(GetRequestInfo(ev).value.userAgent.value), "bot", i)
  {
    var patterns := ["*Bot*"];
    assert patterns[0] == "*Bot*";
    var request := GetRequestInfo(ev);
    if request.Some? && request.value.userAgent.Some? {
      InfixBot(request.value.userAgent.value);
      assert AnyWildcardMatches(request.value.userAgent.value, patterns)
        <==> IsPatternMatch(request.value.userAgent.value, "*Bot*");
    }
  }

  lemma InfixBot(ua: string)
    ensures IsPatternMatch(ua, "*Bot*") <==> exists i :: OccursAt(Lower(ua), "bot", i)
  {
    InfixMatchIff(ua, "Bot");
    assert "*" + "Bot" + "*" == "*Bot*";
    assert Lower("Bot") == "bot";
  }

  /** An event without request info is never a bot request. */
  lemma NoRequestIsNoBot(ev: Event, botPatterns: seq<string>)
    requires RequestKey !in ev.data
    ensures !IsBotRequest(ev, botPatterns)
  {
  }

  const BingUserAgent := "Mozilla/5.0 (compatible; bingbot/2.0 +http://www.bing.com/bingbot.htm)"

  const SafariUserAgent := "Mozilla/5.0 (Macintosh; " + "Intel Mac OS X 10_11_3) " + "AppleWe" + "b"
                         + "Kit/601.4.4 (KHTML, " + "like Gecko) Version/9.0.3 " + "Safari/601.4.4"

  lemma BingContainsBot()
    ensures OccursAt(Lower(BingUserAgent), "bot", 29)
  {
    var v := Lower(BingUserAgent);
    assert v[29] == 'b' && v[30] == 'o' && v[31] == 't';
    assert v[29..32] == "bot";
  }

  ghost predicate FreeOfB(s: string) {
    forall i :: 0 <= i < |s| ==> LowerChar(s[i]) != 'b'
  }

  lemma FreeOfBConcat(a: string, b: string)
    requires FreeOfB(a) && FreeOfB(b)
    ensures FreeOfB(a + b)
  {
    forall i | 0 <= i < |a + b| ensures LowerChar((a + b)[i]) != 'b' {
      if i >= |a| {
        assert (a + b)[i] == b[i - |a|];
      }
    }
  }

  /** A text whose only 'b' is not followed by 'o' does not contain "bot". */
  lemma NoBotAroundB(x: string, y: string)
    requires FreeOfB(x) && FreeOfB(y) && |y| > 0 && LowerChar(y[0]) != 'o'
    ensures forall i :: !OccursAt(Lower(x + "b" + y), "bot", i)
  {
    var ua := x + "b" + y;
    var v := Lower(ua);
    forall i ensures !OccursAt(v, "bot", i) {
      if 0 <= i && i + 3 <= |v| {
        if i < |x| {
          assert ua[i] == x[i];
          assert v[i..i + 3][0] == v[i] != 'b';
        } else if i == |x| {
          assert ua[i + 1] == y[0];
          assert v[i..i + 3][1] == v[i + 1] != 'o';
        } else {
          assert ua[i] == y[i - |x| - 1];
          assert v[i..i + 3][0] == v[i] != 'b';
        }
      }
    }
  }

  lemma SafariPiecesFreeOfB()
    ensures FreeOfB("Mozilla/5.0 (Macintosh; ") && FreeOfB("Intel Mac OS X 10_11_3) ") && FreeOfB("AppleWe")
    ensures FreeOfB("Kit/601.4.4 (KHTML, ") && FreeOfB("like Gecko) Version/9.0.3 ") && FreeOfB("Safari/601.4.4")
  {
  }

  lemma SafariLacksBot()
    ensures forall i :: !OccursAt(Lower(SafariUserAgent), "bot", i)
  {
    var x1, x2, x3 := "Mozilla/5.0 (Macintosh; ", "Intel Mac OS X 10_11_3) ", "AppleWe";
    var y1, y2, y3 := "Kit/601.4.4 (KHTML, ", "like Gecko) Version/9.0.3 ", "Safari/601.4.4";
    SafariPiecesFreeOfB();
    FreeOfBConcat(x1, x2);
    FreeOfBConcat(x1 + x2, x3);
    FreeOfBConcat(y1, y2);
    FreeOfBConcat(y1 + y2, y3);
    assert SafariUserAgent == (x1 + x2 + x3) + "b" + (y1 + y2 + y3);
    NoBotAroundB(x1 + x2 + x3, y1 + y2 + y3);
  }

  /** "*Bot*" matches the Bing crawler's user agent and not Safari's. */
  lemma BotPatternOnKnownAgents()
    ensures IsPatternMatch(BingUserAgent, "*Bot*")
    ensures !IsPatternMatch(SafariUserAgent, "*Bot*")
  {
    BingContainsBot();
    InfixBot(BingUserAgent);
    SafariLacksBot();
    InfixBot(SafariUserAgent);
  }

  /** With the single pattern "*Bot*", a request from the Bing crawler is a
      bot request and one from Safari is not, whatever else the event holds. */
  lemma KnownAgentsAsRequests(ev: Event)
    ensures IsBotRequest(AddRequestInfo(ev, RequestInfo(Some(BingUserAgent))), ["*Bot*"])
    ensures !IsBotRequest(AddRequestInfo(ev, RequestInfo(Some(SafariUserAgent))), ["*Bot*"])
  {
    BotPatternOnKnownAgents();
    assert ["*Bot*"][0] == "*Bot*";
    assert AnyWildcardMatches(BingUserAgent, ["*Bot*"]);
    assert !AnyWildcardMatches(SafariUserAgent, ["*Bot*"]);
  }

  // ---------------------------------------------------------------------
  // Sessions without a user, and the machine user

  /** A session start, end or heartbeat without a user identity (no user
      info, or one whose identity is null or empty). */
  predicate CancelsSession(ev: Event) {
    IsSessionType(ev.eventType)
    && var user := GetUserIdentity(ev);
       user.None? || IsNullOrEmpty(user.value.identity)
  }

  /** For an event of type `t` given the identity `identity` alone, the
      session check cancels exactly when `t` is a session type and the
      identity is null or empty. */
  lemma SessionCancelIff(t: EventType, identity: Option<string>)
    ensures CancelsSession(SetUserIdentity(NewEvent(t), UserInfo(identity, None)))
        <==> IsSessionType(t) && IsNullOrEmpty(identity)
  {
    var ev := SetUserIdentity(NewEvent(t), UserInfo(identity, None));
    if !IsNullOrEmpty(identity) {
      assert GetUserIdentity(ev) == Some(UserInfo(identity, None));
    }
  }

  /** The event with the machine user as identity when it has no user info
      at all; user info already present is never overwritten, even one with
      only a display name, and an empty machine user has nothing to attach. */
  function WithEnvironmentUser(ev: Event, machineUser: string): (r: Event)
    ensures GetUserIdentity(ev).Some? || machineUser == "" ==> r == ev
    ensures GetUserIdentity(ev).None? && machineUser != "" ==>
              GetUserIdentity(r) == Some(UserInfo(Some(machineUser), None))
    ensures r.eventType == ev.eventType && r.tags == ev.tags && r.referenceId == ev.referenceId
    ensures r.message == ev.message
    ensures forall k :: k != UserKey ==> (k in r.data <==> k in ev.data)
    ensures forall k :: k != UserKey && k in ev.data ==> r.data[k] == ev.data[k]
  {
    if GetUserIdentity(ev).Some? || machineUser == "" then ev
    else SetUserIdentity(ev, UserInfo(Some(machineUser), None))
  }

  // ---------------------------------------------------------------------
  // Environment info and reference ids

  /** The event with the environment payload under its key, unless one is
      already there. */
  function WithEnvironmentInfo(ev: Event, payload: nat): (r: Event)
    ensures EnvironmentKey in r.data && r.data.Keys == ev.data.Keys + {EnvironmentKey}
    ensures EnvironmentKey !in ev.data ==> r.data[EnvironmentKey] == EnvironmentPayload(payload)
    ensures forall k :: k in ev.data ==> r.data[k] == ev.data[k]
    ensures r.eventType == ev.eventType && r.tags == ev.tags && r.referenceId == ev.referenceId
    ensures r.message == ev.message
  {
    if EnvironmentKey in ev.data then ev
    else ev.(data := ev.data[EnvironmentKey := EnvironmentPayload(payload)])
  }

  /** A session event that starts with no data ends with exactly one entry,
      the environment info. */
  lemma EnvironmentInfoOnNewEvent(t: EventType, payload: nat)
    ensures |WithEnvironmentInfo(NewEvent(t), payload).data| == 1
  {
    var r := WithEnvironmentInfo(NewEvent(t), payload);
    assert r.data.Keys == {EnvironmentKey};
  }

  predicate HasReferenceId(ev: Event) {
    ev.referenceId.Some? && ev.referenceId.value != Assigned("")
  }

  /** An error event without a reference id gets a freshly generated one;
      any other event is left alone. */
  function WithReferenceId(ev: Event, serial: nat): (r: Event)
    ensures ev.eventType.Error? && !HasReferenceId(ev) ==> r.referenceId == Some(Generated(serial))
    ensures !(ev.eventType.Error? && !HasReferenceId(ev)) ==> r == ev
    ensures r.eventType == ev.eventType && r.tags == ev.tags && r.data == ev.data
    ensures r.message == ev.message
  {
    if ev.eventType.Error? && !HasReferenceId(ev) then ev.(referenceId := Some(Generated(serial)))
    else ev
  }

  // ---------------------------------------------------------------------
  // Inline function plugins

  /** What an inline function plugin does to the event and the cancel flag. */
  function ApplyInline(action: InlineAction, ev: Event, cancel: bool): (r: (Event, bool))
    ensures r.1 <==> cancel || action.CancelEvent?
    ensures action.AddTag? ==> r.0 == ev.(tags := ev.tags + {action.tag})
    ensures action.SetVersion? ==>
              (&& r.0.data == ev.data[VersionKey := Text(action.version)]
               && r.0.eventType == ev.eventType && r.0.tags == ev.tags
               && r.0.message == ev.message && r.0.referenceId == ev.referenceId)
    ensures action.CancelEvent? ==> r.0 == ev
  {
    match action
    case CancelEvent => (ev, true)
    case AddTag(tag) => (ev.(tags := ev.tags + {tag}), cancel)
    case SetVersion(version) => (ev.(data := ev.data[VersionKey := Text(version)]), cancel)
  }
}
