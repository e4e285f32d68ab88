/**
 * The engine's error type (`hell_core::error`): a kind plus a content, the
 * helpers that turn `Option` and foreign `Result` values into it, and its
 * `Display` text.
 */
module HellErrors {
  import opened Wrappers
  import Text

  datatype HellErrorKind =
    GenericError | WindowError | RenderError | ResourceError | WebError | RequestError

  /** A foreign error (`dyn std::error::Error`), known here only by the text its `Display` prints. */
  datatype SourceError = SourceError(text: string)

  datatype HellErrorContent =
    | Empty
    | Wrapper(source: SourceError)
    | Message(msg: string)
    | Code(code: nat)

  /** The `inner` struct of `HellError`, flattened: it has no other field. */
  datatype HellError = HellError(kind: HellErrorKind, content: HellErrorContent)

  type HellResult<T> = Result<T, HellError>

  /** The largest `u32`, the type of an error code. */
  const U32_MAX: nat := 0xFFFF_FFFF

  /** The `Debug` name of a kind. */
  function KindName(k: HellErrorKind): string
  {
    match k
    case GenericError => "GenericError"
    case WindowError => "WindowError"
    case RenderError => "RenderError"
    case ResourceError => "ResourceError"
    case WebError => "WebError"
    case RequestError => "RequestError"
  }

  function FromSource(kind: HellErrorKind, source: SourceError): (e: HellError)
    ensures e.kind == kind && e.content.Wrapper? && e.content.source == source
  {
    HellError(kind, Wrapper(source))
  }

  function FromMsg(kind: HellErrorKind, msg: string): (e: HellError)
    ensures e.kind == kind && e.content.Message? && e.content.msg == msg
  {
    HellError(kind, Message(msg))
  }

  /** `From<E> for HellError`, which the `?` operator applies to foreign errors. */
  function FromForeign(source: SourceError): (e: HellError)
    ensures e == FromSource(GenericError, source)
  {
    HellError(GenericError, Wrapper(source))
  }

  /** `HellErrorHelper::render_msg_err`. */
  function RenderMsgErr(msg: string): (e: HellError)
    ensures e == FromMsg(RenderError, msg)
  {
    HellError(RenderError, Message(msg))
  }

  /** `HellErrorHelper::request_msg_err` (its echo to standard error is not modelled). */
  function RequestMsgErr(msg: string): (e: HellError)
    ensures e == FromMsg(RequestError, msg)
  {
    HellError(RequestError, Message(msg))
  }

  /** `ErrToHellErr::to_hell_err`: `Ok` passes through, an `Err` is wrapped with `kind`. */
  function ToHellErr<V>(r: Result<V, SourceError>, kind: HellErrorKind): (h: HellResult<V>)
    ensures h.Ok? <==> r.Ok?
    ensures r.Ok? ==> h.value == r.value
    ensures r.Err? ==> h.error == FromSource(kind, r.error)
  {
    match r
    case Ok(v) => Ok(v)
    case Err(e) => Err(HellError(kind, Wrapper(e)))
  }

  function ToGenericHellErr<V>(r: Result<V, SourceError>): (h: HellResult<V>)
    ensures h == ToHellErr(r, GenericError)
  {
    match r
    case Ok(v) => Ok(v)
    case Err(e) => Err(HellError(GenericError, Wrapper(e)))
  }

  function ToRenderHellErr<V>(r: Result<V, SourceError>): (h: HellResult<V>)
    ensures h == ToHellErr(r, RenderError)
  {
    match r
    case Ok(v) => Ok(v)
    case Err(e) => Err(HellError(RenderError, Wrapper(e)))
  }

  /** `OptToHellErr::ok_or_herr`: `None` becomes an error of `kind` saying "option is none". */
  function OkOrHerr<V>(o: Option<V>, kind: HellErrorKind): (h: HellResult<V>)
    ensures h.Ok? <==> o.Some?
    ensures o.Some? ==> h.value == o.value
    ensures o.None? ==> h.error == FromMsg(kind, "option is none")
  {
    match o
    case Some(v) => Ok(v)
    case None => Err(HellError(kind, Message("option is none")))
  }

  function OptToGenericHellErr<V>(o: Option<V>): (h: HellResult<V>)
    ensures h == OkOrHerr(o, GenericError)
  {
    OkOrHerr(o, GenericError)
  }

  function OptToWindowHellErr<V>(o: Option<V>): (h: HellResult<V>)
    ensures h == OkOrHerr(o, WindowError)
  {
    OkOrHerr(o, WindowError)
  }

  function OptToRenderHellErr<V>(o: Option<V>): (h: HellResult<V>)
    ensures h == OkOrHerr(o, RenderError)
  {
    OkOrHerr(o, RenderError)
  }

  /** `OptToHellErr::ok_or_render_herr`: `None` becomes a render error carrying `msg`. */
  function OkOrRenderHerr<V>(o: Option<V>, msg: string): (h: HellResult<V>)
    ensures h.Ok? <==> o.Some?
    ensures o.Some? ==> h.value == o.value
    ensures o.None? ==> h.error == RenderMsgErr(msg)
  {
    match o
    case Some(v) => Ok(v)
    case None => Err(HellError(RenderError, Message(msg)))
  }

  /** Turning an option into a result and back with `Result::ok` loses nothing. */
  lemma OkOrHerrRoundTrip<V>(o: Option<V>, kind: HellErrorKind, msg: string)
    ensures OkOrHerr(o, kind).ToOption() == o
    ensures OkOrRenderHerr(o, msg).ToOption() == o
  {
  }

  /** `Display for InnerHellError`. */
  function Display(e: HellError): (s: string)
    ensures e.content.Wrapper? ==> s == e.content.source.text
    ensures !e.content.Wrapper? ==>
              |s| >= |KindName(e.kind)| + 3 && s[..|KindName(e.kind)| + 3] == "[" + KindName(e.kind) + "] "
  {
    var tag := "[" + KindName(e.kind) + "] ";
    match e.content
    case Empty => tag + "error has no content"
    case Wrapper(source) => source.text
    case Message(msg) => tag + msg
    case Code(code) => tag + "Error-Code: '" + Text.NatToString(code) + "'"
  }

  /** The text before the first `]`. */
  function UpToBracket(s: string): (r: string)
    ensures ']' !in r
  {
    if s == [] || s[0] == ']' then [] else [s[0]] + UpToBracket(s[1..])
  }

  lemma {:induction false} UpToBracketOf(name: string, rest: string)
    requires ']' !in name
    ensures UpToBracket(name + "]" + rest) == name
  {
    var s := name + "]" + rest;
    if name != [] {
      assert s[0] == name[0] && s[1..] == name[1..] + "]" + rest;
      UpToBracketOf(name[1..], rest);
    }
  }

  function KindFromName(name: string): Option<HellErrorKind>
  {
    if name == "GenericError" then Some(GenericError)
    else if name == "WindowError" then Some(WindowError)
    else if name == "RenderError" then Some(RenderError)
    else if name == "ResourceError" then Some(ResourceError)
    else if name == "WebError" then Some(WebError)
    else if name == "RequestError" then Some(RequestError)
    else None
  }

  /** Reads the kind back from the `[kind] ` tag that starts a displayed error. */
  function ParseKindTag(s: string): Option<HellErrorKind>
  {
    if s != [] && s[0] == '[' then KindFromName(UpToBracket(s[1..])) else None
  }

  /**
   * A displayed message error determines both its kind and its message:
   * the tag parses back to the kind and the text after it is the message.
   */
  lemma DisplayMessageRoundTrip(kind: HellErrorKind, msg: string)
    ensures ParseKindTag(Display(FromMsg(kind, msg))) == Some(kind)
    ensures Display(FromMsg(kind, msg))[|KindName(kind)| + 3..] == msg
  {
    var name := KindName(kind);
    var s := Display(FromMsg(kind, msg));
    assert s == "[" + name + "] " + msg;
    assert s[1..] == name + "]" + (" " + msg);
    UpToBracketOf(name, " " + msg);
  }

  /** Two message errors that display the same are the same error. */
  lemma DisplayMessageInjective(k1: HellErrorKind, m1: string, k2: HellErrorKind, m2: string)
    requires Display(FromMsg(k1, m1)) == Display(FromMsg(k2, m2))
    ensures k1 == k2 && m1 == m2
  {
    DisplayMessageRoundTrip(k1, m1);
    DisplayMessageRoundTrip(k2, m2);
  }

  /** An error code displays as its decimal value between quotes. */
  lemma DisplayCode(kind: HellErrorKind, code: nat)
    requires code <= U32_MAX
    ensures var s := Display(HellError(kind, Code(code)));
            var start := |KindName(kind)| + 3 + |"Error-Code: '"|;
            start < |s| && s[|s| - 1] == '\'' && Text.DecimalValue(s[start..|s| - 1]) == code
  {
    var s := Display(HellError(kind, Code(code)));
    var start := |KindName(kind)| + 3 + |"Error-Code: '"|;
    assert s[start..|s| - 1] == Text.NatToString(code);
    Text.DecimalValueOfNatToString(code);
  }
}
