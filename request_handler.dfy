/**
 * `createRequestHandler` (src/server/create-request-handler.ts): returns the given handler, or, when
 * the options form carries `requestProps`, a handler that first checks the request against them.
 */
module RequestHandler {
  import opened Wrappers
  import opened Json
  import opened Shapes
  import opened Express
  import opened Contract

  /**
   * The first argument: the schema (positional form, the handler is the third argument) or the
   * options object `{schema, route, requestProps?, handler}`.
   */
  datatype FirstArg = SchemaArg | Options(handler: Option<Handler>, requestProps: Option<Shape>)

  /**
   * The guarded handler exactly as written: the property check throws when the request does not conform;
   * otherwise `h(req, res, next)` is called, and calling a missing `h` throws. The wrapper does not
   * return `h`'s result, so a promise `h` returns is dropped: neither its rejection nor an error one of
   * an async `h`'s response calls throws ever surfaces.
   */
  function GuardAsWritten(props: Shape, h: Option<Handler>, req: ReqState): Behaviour {
    if !Valid(props, RequestObject(req)) then Behaviour([], Throws(ShapeMismatch), AsThrow)
    else if h.None? then Behaviour([], Throws(NotAFunction), AsThrow)
    else
      var b := h.value(req);
      Behaviour(b.effects, if b.ending.Rejects? then Returns else b.ending,
                if b.thrownAs.AsRejection? then AsLost else b.thrownAs)
  }

  /** The guarded handler as intended: the same checks, then whatever `h` does, its returned promise included. */
  function Guard(props: Shape, h: Option<Handler>, req: ReqState): Behaviour {
    if !Valid(props, RequestObject(req)) then Behaviour([], Throws(ShapeMismatch), AsThrow)
    else if h.None? then Behaviour([], Throws(NotAFunction), AsThrow)
    else h.value(req)
  }

  /** Which handler the overloads resolve to: the third argument, else the options' handler; `None` is `undefined`. */
  function ResolvedHandler(first: FirstArg, handler: Option<Handler>): Option<Handler> {
    if handler.Some? then handler else if first.Options? then first.handler else None
  }

  /** The properties to check: only in the options form without a third argument. */
  function ResolvedProps(first: FirstArg, handler: Option<Handler>): Option<Shape> {
    if handler.Some? || first.SchemaArg? then None else first.requestProps
  }

  /**
   * `createRequestHandler(optionsOrSchema, route?, handler?)` as written: without properties to check, the
   * resolved handler itself; with them, the wrapper that checks the request and then calls the handler
   * without returning what it returns.
   */
  function CreateRequestHandler(first: FirstArg, handler: Option<Handler>): Option<Handler> {
    var h := ResolvedHandler(first, handler);
    var props := ResolvedProps(first, handler);
    if props.None? then h
    else Some((req: ReqState) => GuardAsWritten(props.value, h, req))
  }

  /** `createRequestHandler` as intended: the wrapper returns the handler's result, so a rejection survives. */
  function CreateRequestHandlerIntended(first: FirstArg, handler: Option<Handler>): Option<Handler> {
    var h := ResolvedHandler(first, handler);
    var props := ResolvedProps(first, handler);
    if props.None? then h
    else Some((req: ReqState) => Guard(props.value, h, req))
  }

  /** The positional form returns its handler as it is, whatever the first argument. */
  lemma PositionalReturnsHandler(first: FirstArg, h: Handler)
    ensures CreateRequestHandler(first, Some(h)) == Some(h)
  {
  }

  /** The options form without `requestProps` returns the options' handler as it is (or `undefined`). */
  lemma OptionsWithoutProps(h: Option<Handler>)
    ensures CreateRequestHandler(Options(h, None), None) == h
  {
  }

  /**
   * With `requestProps`, the returned handler checks the whole request object. One that does not conform
   * makes it throw the validation error without calling the given handler. For one that does, it makes the
   * given handler's calls on the response and ends as that handler does, except that a returned rejection
   * becomes a plain return and an error an async handler's call throws is lost.
   */
  lemma OptionsWithProps(h: Handler, props: Shape, req: ReqState)
    ensures CreateRequestHandler(Options(Some(h), Some(props)), None).Some?
    ensures !Valid(props, RequestObject(req)) ==>
      CreateRequestHandler(Options(Some(h), Some(props)), None).value(req) == Behaviour([], Throws(ShapeMismatch), AsThrow)
    ensures Valid(props, RequestObject(req)) ==>
      var b := CreateRequestHandler(Options(Some(h), Some(props)), None).value(req);
      && b.effects == h(req).effects
      && b.ending == (if h(req).ending.Rejects? then Returns else h(req).ending)
      && b.thrownAs == (if h(req).thrownAs.AsRejection? then AsLost else h(req).thrownAs)
  {
  }

  /** The intended wrapper behaves exactly as the given handler on a conforming request. */
  lemma IntendedOptionsWithProps(h: Handler, props: Shape, req: ReqState)
    ensures CreateRequestHandlerIntended(Options(Some(h), Some(props)), None).Some?
    ensures !Valid(props, RequestObject(req)) ==>
      CreateRequestHandlerIntended(Options(Some(h), Some(props)), None).value(req) == Behaviour([], Throws(ShapeMismatch), AsThrow)
    ensures Valid(props, RequestObject(req)) ==>
      CreateRequestHandlerIntended(Options(Some(h), Some(props)), None).value(req) == h(req)
  {
  }

  /**
   * Run on the same response, the handler as written and the intended one make the same calls and leave
   * the same response; their endings differ only where the intended one rejects (a returned rejection,
   * or an error an async handler's call throws), and there the one as written returns.
   */
  lemma {:induction false} IntendedDiffersOnlyInRejection(first: FirstArg, handler: Option<Handler>, req: ReqState, res: ResState)
    requires CreateRequestHandler(first, handler).Some?
    ensures CreateRequestHandlerIntended(first, handler).Some?
    ensures var (ea, ra) := RunBehaviour(CreateRequestHandler(first, handler).value(req), res);
      var (eb, rb) := RunBehaviour(CreateRequestHandlerIntended(first, handler).value(req), res);
      ra == rb && (ea == eb || (eb.Rejects? && ea == Returns))
  {
    var a := CreateRequestHandler(first, handler).value(req);
    var b := CreateRequestHandlerIntended(first, handler).value(req);
    assert a.effects == b.effects;
  }

  /** With `requestProps` but no handler, a conforming request makes the returned handler throw. */
  lemma MissingHandlerThrows(props: Shape, req: ReqState)
    requires Valid(props, RequestObject(req))
    ensures CreateRequestHandler(Options(None, Some(props)), None).Some?
    ensures CreateRequestHandler(Options(None, Some(props)), None).value(req) == Behaviour([], Throws(NotAFunction), AsThrow)
  {
  }

  /**
   * Registered behind the error-propagating wrapper of a decorated router, the handler `createRequestHandler`
   * returns loses an error of an async handler, whether the handler's promise rejects or one of its
   * response calls throws (a patched `res.json` refusing a body, say): the wrapper sees a plain return and
   * `next(err)` is never called, while the unguarded handler's error reaches `next(err)`.
   */
  lemma DroppedRejection(props: Shape, h: Handler, ctx: Ctx, e: Error)
    requires Valid(props, RequestObject(ctx.req))
    requires RunBehaviour(h(ctx.req), ctx.res).0 == Rejects(e)
    ensures PropagatingStep(CreateRequestHandler(Options(Some(h), Some(props)), None).value, ctx).ending == Returns
    ensures PropagatingStep(h, ctx).ending == CallNextWith(e)
  {
  }

  /** Example: an async handler whose `res.json` call is refused by the response shape loses that error. */
  lemma DroppedRefusedResponse(props: Shape, shape: Shape, v: Value, ctx: Ctx)
    requires Valid(props, RequestObject(ctx.req))
    requires ctx.res.wrappers == [shape] && !Valid(shape, v)
    ensures var h := (req: ReqState) => Behaviour([ResJson(v)], Returns, AsRejection);
      && PropagatingStep(CreateRequestHandler(Options(Some(h), Some(props)), None).value, ctx).ending == Returns
      && PropagatingStep(h, ctx).ending == CallNextWith(ShapeMismatch)
  {
    var h := (req: ReqState) => Behaviour([ResJson(v)], Returns, AsRejection);
    assert RunEffects([ResJson(v)], ctx.res).thrown == Some(ShapeMismatch) by {
      assert ThroughWrappers(ctx.res.wrappers, v) == Failure(ShapeMismatch);
    }
    DroppedRejection(props, h, ctx, ShapeMismatch);
  }

  /** The intended wrapper lets the same error reach `next(err)`, as it does for an unguarded handler. */
  lemma RejectionPropagates(props: Shape, h: Handler, ctx: Ctx, e: Error)
    requires Valid(props, RequestObject(ctx.req))
    requires RunBehaviour(h(ctx.req), ctx.res).0 == Rejects(e)
    ensures PropagatingStep(CreateRequestHandlerIntended(Options(Some(h), Some(props)), None).value, ctx).ending
      == CallNextWith(e)
  {
  }
}
