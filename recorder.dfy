/**
 * The recorder the injected bundle constructs (`window.Highlight`), seen only
 * through the fields and methods the loader uses, and the session URL the
 * loader formats from its identifiers.
 */
module Recorders {
  import opened Wrappers
  import opened Values
  import opened Config
  import Text

  /** The recorder methods the loader calls. */
  datatype Method = InitializeMethod | PushCustomErrorMethod | AddPropertiesMethod | IdentifyMethod

  /** One call the recorder received, with its arguments. */
  datatype Call =
    | Initialize(orgID: Option<Ident>)
    | PushCustomError(message: string)
    | AddProperties(properties: map<string, Value>)
    | Identify(identifier: string, traits: Value)

  function MethodOf(c: Call): Method {
    match c
    case Initialize(_) => InitializeMethod
    case PushCustomError(_) => PushCustomErrorMethod
    case AddProperties(_) => AddPropertiesMethod
    case Identify(_, _) => IdentifyMethod
  }

  /**
   * A recorder instance: the options it was built with, its `ready` flag and
   * `sessionID` (both set by the recording engine), the methods that throw
   * when called, and the log of every call it received.
   */
  datatype Recorder = Recorder(
    options: ClassOptions,
    ready: bool,
    sessionID: Option<string>,
    faults: set<Method>,
    log: seq<Call>)
  {
    /** `highlight_obj.organizationID`: the identifier it was constructed with. */
    function OrganizationID(): Ident {
      options.organizationID
    }
  }

  const HIGHLIGHT_URL := "app.highlight.run"
  const EMPTY_IDS := "org ID or session ID is empty"

  /** `sessionID` is truthy: set and not empty. */
  predicate SessionTruthy(session: Option<string>) {
    session.Some? && session.value != ""
  }

  /** What the `getSessionURL` promise settles to, given the recorder's identifiers. */
  function SessionURL(org: Ident, session: Option<string>): (r: Result<string, string>)
    ensures r.Ok? <==> Truthy(org) && SessionTruthy(session)
    ensures r.Err? ==> r.error == EMPTY_IDS
    ensures r.Ok? ==> |r.value| > |HIGHLIGHT_URL| + 1 && r.value[..|HIGHLIGHT_URL| + 1] == HIGHLIGHT_URL + "/"
  {
    if Truthy(org) && SessionTruthy(session) then
      Ok(HIGHLIGHT_URL + "/" + IdentText(org) + "/sessions/" + session.value)
    else
      Err(EMPTY_IDS)
  }

  const SESSIONS_SEGMENT := "sessions/"

  /**
   * Reads the organization and session identifiers back out of a session URL:
   * the text between the host and the next `/`, and everything after `sessions/`.
   */
  function ParseSessionURL(url: string): (r: Option<(string, string)>)
    ensures r.Some? ==> '/' !in r.value.0
  {
    var prefix := HIGHLIGHT_URL + "/";
    if |url| < |prefix| || url[..|prefix|] != prefix then None
    else ParseSessionPath(url[|prefix|..])
  }

  /** `<org>/sessions/<session>` split into its two identifiers. */
  function ParseSessionPath(path: string): (r: Option<(string, string)>)
    ensures r.Some? ==> '/' !in r.value.0
  {
    match Text.IndexOf(path, '/')
    case None => None
    case Some(k) =>
      var tail := path[k + 1..];
      if |tail| < |SESSIONS_SEGMENT| || tail[..|SESSIONS_SEGMENT|] != SESSIONS_SEGMENT then None
      else Some((path[..k], tail[|SESSIONS_SEGMENT|..]))
  }
}
