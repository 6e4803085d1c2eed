/** The argument checks the pipeline facade applies to the argument bags a
    script passes in, and the messages of the `IllegalArgumentException`s it
    raises when a check fails. */
module Validation {
  import opened LinkedMaps

  /** What an operation produces: its value, or the `IllegalArgumentException`
      it throws, with the exception's message. */
  datatype Result<T> = Ok(value: T) | IllegalArgument(message: string)

  /** The outcome of checking one argument bag. */
  datatype Verdict = Accept | Reject(message: string)

  const DOCKER_ARGUMENTS: seq<string> := ["username", "password", "credentialsId", "host", "server"]
  const SERVER_ARGUMENTS: seq<string> := ["url", "username", "password", "credentialsId"]
  const PROMOTION_MANDATORY: seq<string> := ["server", "promotionConfig"]
  const PROMOTION_ALLOWED: seq<string> := ["server", "promotionConfig", "displayName"]

  /** `list.containsAll(items)`. */
  predicate ContainsAll(list: seq<string>, items: set<string>)
  {
    forall x :: x in items ==> x in list
  }

  /** `items.containsAll(list)`, for a key set and a list. */
  predicate ContainsAllOf(items: set<string>, list: seq<string>)
  {
    forall i :: 0 <= i < |list| ==> list[i] in items
  }

  /** The exception messages: a fixed text with the list, printed the way Java
      prints a list (`[a, b, c]`). */
  const DOCKER_MESSAGE := "Only the following arguments are allowed: [username, password, credentialsId, host, server]"
  const SERVER_MESSAGE := "The newServer method accepts the following arguments only: [url, username, password, credentialsId]"
  const PROMOTION_MANDATORY_MESSAGE := "[server, promotionConfig] are mandatory arguments"
  const PROMOTION_ALLOWED_MESSAGE := "Only the following arguments are allowed: [server, promotionConfig, displayName]"
  const CONAN_MESSAGE := "The newConanClient method expects the 'userHome' argument or no arguments."

  /** The allow-list check of `docker(Map)`. */
  function CheckDockerArguments(keys: set<string>): (v: Verdict)
    ensures v.Accept? <==> keys <= {"username", "password", "credentialsId", "host", "server"}
    ensures v.Reject? ==> v.message == DOCKER_MESSAGE
  {
    if !ContainsAll(DOCKER_ARGUMENTS, keys) then
      Reject(DOCKER_MESSAGE)
    else
      Accept
  }

  /** The allow-list check of `newServer(Map)`. */
  function CheckServerArguments(keys: set<string>): (v: Verdict)
    ensures v.Accept? <==> keys <= {"url", "username", "password", "credentialsId"}
    ensures v.Reject? ==> v.message == SERVER_MESSAGE
  {
    if !ContainsAll(SERVER_ARGUMENTS, keys) then
      Reject(SERVER_MESSAGE)
    else
      Accept
  }

  /** The two checks of `addInteractivePromotion(Map)`, mandatory keys first:
      a bag that lacks a mandatory key gets the mandatory-key error whatever
      other keys it has. */
  function CheckPromotionArguments(keys: set<string>): (v: Verdict)
    ensures !({"server", "promotionConfig"} <= keys) ==>
      v == Reject(PROMOTION_MANDATORY_MESSAGE)
    ensures {"server", "promotionConfig"} <= keys && !(keys <= {"server", "promotionConfig", "displayName"}) ==>
      v == Reject(PROMOTION_ALLOWED_MESSAGE)
    ensures v.Accept? <==> {"server", "promotionConfig"} <= keys <= {"server", "promotionConfig", "displayName"}
  {
    assert ContainsAllOf(keys, PROMOTION_MANDATORY) <==> {"server", "promotionConfig"} <= keys by {
      assert PROMOTION_MANDATORY[0] == "server" && PROMOTION_MANDATORY[1] == "promotionConfig";
    }
    if !ContainsAllOf(keys, PROMOTION_MANDATORY) then
      Reject(PROMOTION_MANDATORY_MESSAGE)
    else if !ContainsAll(PROMOTION_ALLOWED, keys) then
      Reject(PROMOTION_ALLOWED_MESSAGE)
    else
      Accept
  }

  /** `Character.isWhitespace` as of Java 9 (Unicode 8 and later, where
      U+180E is no longer a space separator): the Unicode space, line and
      paragraph separators other than the non-breaking spaces, and the ASCII
      controls tab, line feed, vertical tab, form feed, carriage return and
      the four information separators. */
  predicate IsWhitespace(c: char)
  {
    || c == '\t' || c == '\n' || c == '\U{B}' || c == '\U{C}' || c == '\r'
    || ('\U{1C}' <= c <= '\U{20}')
    || c == '\U{1680}'
    || ('\U{2000}' <= c <= '\U{200A}' && c != '\U{2007}')
    || c == '\U{2028}' || c == '\U{2029}' || c == '\U{205F}' || c == '\U{3000}'
  }

  /** `StringUtils.isBlank`: null, empty or whitespace only. */
  predicate IsBlank(v: Value)
    requires !v.Ref?
  {
    v.Null? || forall i :: 0 <= i < |v.s| ==> IsWhitespace(v.s[i])
  }

  /** The check of `newConanClient(Map)`: only `userHome` is looked at, and it
      must hold a string with a non-whitespace character. */
  function CheckConanArguments(userHome: Value): (v: Verdict)
    requires !userHome.Ref?
    ensures v.Accept? <==> userHome.Str? && exists i :: 0 <= i < |userHome.s| && !IsWhitespace(userHome.s[i])
    ensures v.Reject? ==> v.message == CONAN_MESSAGE
  {
    if IsBlank(userHome) then
      Reject(CONAN_MESSAGE)
    else
      Accept
  }
}
