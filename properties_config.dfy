/** What `init` derives from its options, what `track` sends, and how the session URL reads back. */
module ConfigProperties {
  import opened Wrappers
  import opened Values
  import opened Config
  import opened Recorders
  import Text

  /**
   * The script source is the truthy `scriptUrl` or the default bundle URL,
   * then `?`, then the millisecond field; both parts read back unchanged.
   */
  lemma ScriptSourceRoundTrip(options: Option<Options>, millis: Millis)
    ensures SplitScriptSource(ScriptSource(options, millis))
         == Some((if options.Some? && TruthyText(options.value.scriptUrl) then options.value.scriptUrl.value
                  else DEFAULT_SCRIPT_URL, millis))
  {
    var base := ScriptBase(options);
    var digits := Text.Dec(millis);
    assert '?' !in digits;
    Text.LastIndexOfSplit(base, '?', digits);
    var src := base + ['?'] + digits;
    assert ScriptSource(options, millis) == src;
    assert src[|base| + 1..] == digits;
    assert src[..|base|] == base;
    Text.ParseDec(millis);
  }

  /** The recorder gets the organization identifier and the option fields; strict privacy is `false` unless set to `true`. */
  lemma ConstructorOptions(orgID: Ident, options: Option<Options>)
    ensures var c := ClassOptionsOf(orgID, options);
      && c.organizationID == orgID
      && (c.enableStrictPrivacy <==> options.Some? && options.value.enableStrictPrivacy == Some(true))
      && (options.None? ==>
            c.debug == DebugUnset && c.backendUrl == None && c.disableNetworkRecording == None
            && c.disableConsoleRecording == None && c.enableSegmentIntegration == None)
      && (options.Some? ==>
            c.debug == options.value.debug && c.backendUrl == options.value.backendUrl
            && c.disableNetworkRecording == options.value.disableNetworkRecording
            && c.disableConsoleRecording == options.value.disableConsoleRecording
            && c.enableSegmentIntegration == options.value.enableSegmentIntegration)
  {
  }

  /** `{ ...obj, event }`: the key "event" holds the event name and every other spread key is unchanged. */
  lemma TrackPayloadKeys(obj: Value, event: string)
    ensures var r := TrackPayload(obj, event);
      && r.Keys == Spread(obj).Keys + {EVENT_KEY}
      && r[EVENT_KEY] == Str(event)
      && forall k :: k in Spread(obj) && k != EVENT_KEY ==> r[k] == Spread(obj)[k]
  {
  }

  /** For an object payload, dropping "event" gives back the object without "event": only that key is overwritten. */
  lemma TrackPayloadOfObject(m: map<string, Value>, event: string)
    ensures TrackPayload(Obj(m), event) - {EVENT_KEY} == m - {EVENT_KEY}
    ensures EVENT_KEY in m ==> TrackPayload(Obj(m), event).Keys == m.Keys
    ensures EVENT_KEY !in m ==> TrackPayload(Obj(m), event).Keys == m.Keys + {EVENT_KEY}
  {
  }

  /** `track("signup", { plan: "pro" })` sends `{ plan: "pro", event: "signup" }`. */
  lemma TrackSignupExample()
    ensures TrackPayload(Obj(map["plan" := Str("pro")]), "signup")
         == map["plan" := Str("pro"), "event" := Str("signup")]
  {
  }

  /** Spreading a string yields one entry per character, under its index. */
  lemma SpreadString(s: string)
    ensures forall i :: 0 <= i < |s| ==> Text.Dec(i) in Spread(Str(s)) && Spread(Str(s))[Text.Dec(i)] == Str([s[i]])
    ensures forall k :: k in Spread(Str(s)) ==> exists i :: 0 <= i < |s| && k == Text.Dec(i)
  {
  }

  lemma NumberIdHasNoSlash(n: int)
    ensures '/' !in IdentText(NumberId(n))
  {
    var t := IdentText(NumberId(n));
    if n < 0 {
      assert t == [t[0]] + t[1..];
    }
  }

  /**
   * A session URL is `app.highlight.run/<org>/sessions/<session>`: reading it
   * back recovers both identifiers (for an organization text without `/`).
   */
  lemma SessionURLRoundTrip(org: Ident, session: Option<string>)
    requires Truthy(org) && SessionTruthy(session)
    requires '/' !in IdentText(org)
    ensures SessionURL(org, session).Ok?
    ensures ParseSessionURL(SessionURL(org, session).value) == Some((IdentText(org), session.value))
  {
    var o := IdentText(org);
    var url := SessionURL(org, session).value;
    var prefix := HIGHLIGHT_URL + "/";
    var path := o + "/sessions/" + session.value;
    assert url == prefix + path;
    assert url[..|prefix|] == prefix;
    assert url[|prefix|..] == path;
    SessionPathRoundTrip(o, session.value);
  }
  /** For a numeric organization identifier the round trip needs no condition on its text. */
  lemma NumberSessionURLRoundTrip(n: int, session: Option<string>)
    requires n != 0 && SessionTruthy(session)
    ensures SessionURL(NumberId(n), session).Ok?
    ensures ParseSessionURL(SessionURL(NumberId(n), session).value) == Some((Text.NumberText(n), session.value))
  {
    NumberIdHasNoSlash(n);
    SessionURLRoundTrip(NumberId(n), session);
  }


  lemma SessionPathRoundTrip(o: string, sid: string)
    requires '/' !in o
    ensures ParseSessionPath(o + "/sessions/" + sid) == Some((o, sid))
  {
    var tail := SESSIONS_SEGMENT + sid;
    var path := o + ['/'] + tail;
    assert o + "/sessions/" + sid == path;
    Text.IndexOfSplit(o, '/', tail);
    assert path[..|o|] == o;
    assert path[|o| + 1..] == tail;
    assert tail[..|SESSIONS_SEGMENT|] == SESSIONS_SEGMENT;
    assert tail[|SESSIONS_SEGMENT|..] == sid;
  }

  /** `organizationID` 42 and `sessionID` "abc" give `app.highlight.run/42/sessions/abc`. */
  lemma SessionURLExample()
    ensures SessionURL(NumberId(42), Some("abc")) == Ok("app.highlight.run/42/sessions/abc")
  {
    assert Text.DigitChar(4) == '4' && Text.DigitChar(2) == '2';
    assert Text.Dec(42) == Text.Dec(4) + [Text.DigitChar(2)] == "42";
    assert IdentText(NumberId(42)) == "42";
    assert HIGHLIGHT_URL + "/" + "42" + "/sessions/" + "abc" == "app.highlight.run/42/sessions/abc";
  }
}
