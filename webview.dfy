/**
 * The browser-independent part of the webview class of webview.h and of its
 * C API: the registry of native bindings that JavaScript can call, the
 * scripts bind and unbind hand to the browser engine, the dispatch of a
 * message from JavaScript to its binding, navigation, and the C functions'
 * argument checks with the mapping of exceptions to error codes. The browser
 * engine is represented by the list of calls made into it; the scripts'
 * JavaScript text is represented by what it does.
 */
module Webview {
  import opened Wrappers
  import opened WebviewOptions
  import Json

  type byte = Json.byte

  /** A native callback (opaque to the library) and the user argument passed to it. */
  datatype Binding = Binding(callback: nat, arg: Pointer)

  /**
   * The scripts the webview hands to the engine: one given by the user, one
   * that defines window[name] as a function posting a JSON-RPC request, or
   * one that deletes window[name].
   */
  datatype Script = UserScript(text: seq<byte>) | DefineBinding(name: seq<byte>) | DeleteBinding(name: seq<byte>)

  /** A call into the browser engine. */
  datatype EngineCall = Init(script: Script) | Eval(script: Script) | NavigateTo(url: seq<byte>) | SetTitle(title: seq<byte>)

  /** A binding's callback invoked with the request's id and its parameters. */
  datatype Invocation = Invocation(binding: Binding, id: seq<byte>, params: seq<byte>)

  /** "about:blank". */
  const AboutBlank: seq<byte> := [97, 98, 111, 117, 116, 58, 98, 108, 97, 110, 107]

  /** The members of a request message: "id", "method" and "params". */
  const IdKey: seq<byte> := [105, 100]
  const MethodKey: seq<byte> := [109, 101, 116, 104, 111, 100]
  const ParamsKey: seq<byte> := [112, 97, 114, 97, 109, 115]

  /**
   * What on_message does with a message: the binding named by its "method"
   * member is called with its "id" and "params" members; a message for no
   * binding is ignored.
   */
  function Dispatched(bindings: map<seq<byte>, Binding>, msg: seq<byte>): Option<Invocation> {
    var name := Json.ParsedValue(msg, MethodKey, 0);
    if name in bindings then Some(Invocation(bindings[name], Json.ParsedValue(msg, IdKey, 0), Json.ParsedValue(msg, ParamsKey, 0)))
    else None
  }

  /** A message for a name just bound reaches the new binding. */
  lemma DispatchAfterBind(bindings: map<seq<byte>, Binding>, name: seq<byte>, b: Binding, msg: seq<byte>)
    requires Json.ParsedValue(msg, MethodKey, 0) == name
    ensures Dispatched(bindings[name := b], msg) == Some(Invocation(b, Json.ParsedValue(msg, IdKey, 0), Json.ParsedValue(msg, ParamsKey, 0)))
  {
  }

  /** A message for a name just unbound is ignored. */
  lemma DispatchAfterUnbind(bindings: map<seq<byte>, Binding>, name: seq<byte>, msg: seq<byte>)
    requires Json.ParsedValue(msg, MethodKey, 0) == name
    ensures Dispatched(bindings - {name}, msg) == None
  {
  }

  /** Binding or unbinding a name leaves messages for every other name as they were. */
  lemma DispatchOtherNames(bindings: map<seq<byte>, Binding>, name: seq<byte>, b: Binding, msg: seq<byte>)
    requires Json.ParsedValue(msg, MethodKey, 0) != name
    ensures Dispatched(bindings[name := b], msg) == Dispatched(bindings, msg)
    ensures Dispatched(bindings - {name}, msg) == Dispatched(bindings, msg)
  {
  }

  /** A webview: its options after the compatibility step, its bindings and the engine calls made. */
  class Webview {
    var options: CreateOptions
    var bindings: map<seq<byte>, Binding>
    var engineCalls: seq<EngineCall>

    /**
     * The constructor, once the compatibility step has accepted the options
     * and the browser engine has been set up.
     */
    constructor(requested: CreateOptions)
      requires ApplyCompatibilityAsWritten(requested).Returned?
      ensures options == ApplyCompatibilityAsWritten(requested).value
      ensures bindings == map[] && engineCalls == []
    {
      options := ApplyCompatibilityAsWritten(requested).value;
      bindings := map[];
      engineCalls := [];
    }

    /** navigate: an empty URL navigates to about:blank. */
    method Navigate(url: seq<byte>)
      modifies this
      ensures engineCalls == old(engineCalls) + [NavigateTo(if |url| == 0 then AboutBlank else url)]
      ensures bindings == old(bindings) && options == old(options)
    {
      if |url| == 0 {
        engineCalls := engineCalls + [NavigateTo(AboutBlank)];
        return;
      }
      engineCalls := engineCalls + [NavigateTo(url)];
    }

    /**
     * bind: a name already bound throws DUPLICATE and changes nothing;
     * otherwise the binding is stored, and the script defining window[name]
     * is both registered to run on every page and evaluated now.
     */
    method Bind(name: seq<byte>, callback: nat, arg: Pointer) returns (c: Completion)
      modifies this
      ensures old(name in bindings) ==> c == ThrewWebviewException(Duplicate) && bindings == old(bindings) && engineCalls == old(engineCalls)
      ensures old(name !in bindings) ==> c == Completed && bindings == old(bindings)[name := Binding(callback, arg)]
      ensures old(name !in bindings) ==> engineCalls == old(engineCalls) + [Init(DefineBinding(name)), Eval(DefineBinding(name))]
      ensures options == old(options)
    {
      if name in bindings {
        return ThrewWebviewException(Duplicate);
      }
      bindings := bindings[name := Binding(callback, arg)];
      engineCalls := engineCalls + [Init(DefineBinding(name)), Eval(DefineBinding(name))];
      c := Completed;
    }

    /**
     * unbind: a name not bound throws NOT_FOUND and changes nothing;
     * otherwise the script deleting window[name] is registered and evaluated,
     * and the binding is removed.
     */
    method Unbind(name: seq<byte>) returns (c: Completion)
      modifies this
      ensures old(name !in bindings) ==> c == ThrewWebviewException(NotFound) && bindings == old(bindings) && engineCalls == old(engineCalls)
      ensures old(name in bindings) ==> c == Completed && bindings == old(bindings) - {name}
      ensures old(name in bindings) ==> engineCalls == old(engineCalls) + [Init(DeleteBinding(name)), Eval(DeleteBinding(name))]
      ensures options == old(options)
    {
      if name !in bindings {
        return ThrewWebviewException(NotFound);
      }
      engineCalls := engineCalls + [Init(DeleteBinding(name)), Eval(DeleteBinding(name))];
      bindings := bindings - {name};
      c := Completed;
    }

    /** on_message: the invocation made, if any; the webview itself is not changed. */
    method OnMessage(msg: seq<byte>) returns (r: Option<Invocation>)
      ensures r == Dispatched(bindings, msg)
      ensures r.None? <==> Json.ParsedValue(msg, MethodKey, 0) !in bindings
    {
      var id := Json.JsonParse(msg, IdKey, 0);
      var name := Json.JsonParse(msg, MethodKey, 0);
      var params := Json.JsonParse(msg, ParamsKey, 0);
      if name !in bindings {
        return None;
      }
      r := Some(Invocation(bindings[name], id, params));
    }

    /** init and eval hand a user script to the engine. */
    method AddScript(script: seq<byte>, now: bool)
      modifies this
      ensures engineCalls == old(engineCalls) + [if now then Eval(UserScript(script)) else Init(UserScript(script))]
      ensures bindings == old(bindings) && options == old(options)
    {
      engineCalls := engineCalls + [if now then Eval(UserScript(script)) else Init(UserScript(script))];
    }

    method SetWindowTitle(title: seq<byte>)
      modifies this
      ensures engineCalls == old(engineCalls) + [SetTitle(title)]
      ensures bindings == old(bindings) && options == old(options)
    {
      engineCalls := engineCalls + [SetTitle(title)];
    }
  }

  /** cast_to_webview: a null handle throws INVALID_ARGUMENT. */
  function CastToWebview(w: Webview?): (c: Completion)
    ensures c == Completed <==> w != null
    ensures c != Completed ==> c == ThrewWebviewException(InvalidArgument)
  {
    if w == null then ThrewWebviewException(InvalidArgument) else Completed
  }

  /**
   * webview_create_with_options: a null out-pointer or null options give
   * INVALID_ARGUMENT; otherwise the compatibility step runs, then the browser
   * engine is set up (`engine` is how its constructor ends), and the code of
   * the first exception thrown is returned. No webview is created unless both
   * complete.
   */
  method CreateWithOptions(hasOut: bool, options: Option<CreateOptions>, engine: Completion) returns (err: ErrorCode, w: Webview?)
    ensures !hasOut || options.None? ==> err == InvalidArgument && w == null
    ensures hasOut && options.Some? && ApplyCompatibilityAsWritten(options.value).Threw? ==>
      err == ApplyCompatibilityAsWritten(options.value).code && w == null
    ensures hasOut && options.Some? && ApplyCompatibilityAsWritten(options.value).Returned? && engine != Completed ==>
      err == TryCatch(engine) && w == null
    ensures hasOut && options.Some? && ApplyCompatibilityAsWritten(options.value).Returned? && engine == Completed ==>
      && err == Success && w != null && fresh(w)
      && w.options == ApplyCompatibilityAsWritten(options.value).value && w.bindings == map[] && w.engineCalls == []
  {
    w := null;
    if !hasOut || options.None? {
      return InvalidArgument, null;
    }
    match ApplyCompatibilityAsWritten(options.value)
    case Threw(code) =>
      err := TryCatch(ThrewWebviewException(code));
    case Returned(_) =>
      if engine != Completed {
        err := TryCatch(engine);
        return;
      }
      w := new Webview(options.value);
      err := TryCatch(Completed);
  }

  /**
   * webview_create: the options of the two-argument constructor always pass
   * the compatibility step, so a webview is created, with a visible window,
   * exactly when the browser engine can be set up; otherwise the result is
   * null.
   */
  method Create(debug: int, window: Pointer, engine: Completion) returns (w: Webview?)
    ensures w != null <==> engine == Completed
    ensures w != null ==> fresh(w)
    ensures w != null ==> w.options == CreateOptions(MinSupportedVersion, debug != 0, window, true)
    ensures w != null ==> w.bindings == map[] && w.engineCalls == []
  {
    var options := MigrateCreateOptions(debug != 0, window);
    MigratedOptionsAccepted(debug != 0, window);
    ApplyCompatibilityAgrees(options);
    var err;
    err, w := CreateWithOptions(true, Some(options), engine);
    if err != Success {
      w := null;
    }
  }

  /** webview_navigate: a null URL or handle gives INVALID_ARGUMENT and changes nothing. */
  method WebviewNavigate(w: Webview?, url: Option<seq<byte>>) returns (err: ErrorCode)
    modifies w
    ensures url.None? || w == null ==> err == InvalidArgument
    ensures url.None? && w != null ==> w.engineCalls == old(w.engineCalls)
    ensures url.Some? && w != null ==> err == Success && w.engineCalls == old(w.engineCalls) + [NavigateTo(if |url.value| == 0 then AboutBlank else url.value)]
    ensures w != null ==> w.bindings == old(w.bindings) && w.options == old(w.options)
  {
    if url.None? {
      return InvalidArgument;
    }
    var c := CastToWebview(w);
    if c == Completed {
      w.Navigate(url.value);
    }
    err := TryCatch(c);
  }

  /** webview_set_title: a null title or handle gives INVALID_ARGUMENT. */
  method WebviewSetTitle(w: Webview?, title: Option<seq<byte>>) returns (err: ErrorCode)
    modifies w
    ensures title.None? || w == null ==> err == InvalidArgument
    ensures title.None? && w != null ==> w.engineCalls == old(w.engineCalls)
    ensures title.Some? && w != null ==> err == Success && w.engineCalls == old(w.engineCalls) + [SetTitle(title.value)]
    ensures w != null ==> w.bindings == old(w.bindings) && w.options == old(w.options)
  {
    if title.None? {
      return InvalidArgument;
    }
    var c := CastToWebview(w);
    if c == Completed {
      w.SetWindowTitle(title.value);
    }
    err := TryCatch(c);
  }

  /** webview_init (now == false) and webview_eval (now == true): a null script or handle gives INVALID_ARGUMENT. */
  method WebviewScript(w: Webview?, js: Option<seq<byte>>, now: bool) returns (err: ErrorCode)
    modifies w
    ensures js.None? || w == null ==> err == InvalidArgument
    ensures js.None? && w != null ==> w.engineCalls == old(w.engineCalls)
    ensures js.Some? && w != null ==>
      && err == Success
      && w.engineCalls == old(w.engineCalls) + [if now then Eval(UserScript(js.value)) else Init(UserScript(js.value))]
    ensures w != null ==> w.bindings == old(w.bindings) && w.options == old(w.options)
  {
    if js.None? {
      return InvalidArgument;
    }
    var c := CastToWebview(w);
    if c == Completed {
      w.AddScript(js.value, now);
    }
    err := TryCatch(c);
  }

  /**
   * webview_bind: a null name, callback or handle gives INVALID_ARGUMENT; a
   * name already bound gives DUPLICATE; otherwise the binding is added and
   * its defining script goes to the engine; a rejected call leaves the engine
   * alone.
   */
  method WebviewBind(w: Webview?, name: Option<seq<byte>>, callback: Option<nat>, arg: Pointer) returns (err: ErrorCode)
    modifies w
    ensures name.None? || callback.None? || w == null ==> err == InvalidArgument
    ensures w != null && (name.None? || callback.None?) ==> w.bindings == old(w.bindings)
    ensures w != null && name.Some? && callback.Some? ==>
      && (err == Duplicate <==> name.value in old(w.bindings))
      && (err == Success <==> name.value !in old(w.bindings))
      && w.bindings == (if err == Success then old(w.bindings)[name.value := Binding(callback.value, arg)] else old(w.bindings))
    ensures w != null ==>
      w.engineCalls ==
        if name.Some? && callback.Some? && err == Success
        then old(w.engineCalls) + [Init(DefineBinding(name.value)), Eval(DefineBinding(name.value))]
        else old(w.engineCalls)
    ensures w != null ==> w.options == old(w.options)
  {
    if name.None? || callback.None? {
      return InvalidArgument;
    }
    var c := CastToWebview(w);
    if c == Completed {
      c := w.Bind(name.value, callback.value, arg);
    }
    err := TryCatch(c);
  }

  /**
   * webview_unbind: a null name or handle gives INVALID_ARGUMENT; a name not
   * bound gives NOT_FOUND; otherwise the binding is removed and its
   * deleting script goes to the engine; a rejected call leaves the engine alone.
   */
  method WebviewUnbind(w: Webview?, name: Option<seq<byte>>) returns (err: ErrorCode)
    modifies w
    ensures name.None? || w == null ==> err == InvalidArgument
    ensures w != null && name.None? ==> w.bindings == old(w.bindings)
    ensures w != null && name.Some? ==>
      && (err == NotFound <==> name.value !in old(w.bindings))
      && (err == Success <==> name.value in old(w.bindings))
      && w.bindings == (if err == Success then old(w.bindings) - {name.value} else old(w.bindings))
    ensures w != null ==>
      w.engineCalls ==
        if name.Some? && err == Success
        then old(w.engineCalls) + [Init(DeleteBinding(name.value)), Eval(DeleteBinding(name.value))]
        else old(w.engineCalls)
    ensures w != null ==> w.options == old(w.options)
  {
    if name.None? {
      return InvalidArgument;
    }
    var c := CastToWebview(w);
    if c == Completed {
      c := w.Unbind(name.value);
    }
    err := TryCatch(c);
  }
}
