/**
 * The Telegram sink (`TelegramIO`) and the Telegram progress bar
 * (`tqdm_telegram`). The sink's behaviour is first stated on values
 * (`SinkState`, `OpenStep`, `WriteStep`, `DeleteStep`) and the class is proved against it.
 */
module Telegram {
  import opened Outcomes
  import opened Text
  import opened Remote
  import opened Hooks

  /** The sink's class name: the initial text, and the content of the creation post. */
  const ClassName := "TelegramIO"
  const TokenVariable := "TQDM_TELEGRAM_TOKEN"
  const ChatIdVariable := "TQDM_TELEGRAM_CHAT_ID"
  const DefaultMininterval := 1.0

  /** How the constructor's `sendMessage` post turned out. */
  datatype Reply =
    | PostRaised                              // the post raised; the error is echoed
    | Replied(messageId: Option<MessageId>)   // a JSON reply; None when it has no result.message_id

  /** `self.text` and the `message_id` attribute, which is absent when creation failed. */
  datatype SinkState = SinkState(text: string, messageId: Option<MessageId>)

  /** The constructor: a failed post is swallowed; a reply without an id raises. */
  function OpenStep(reply: Reply): Result<Step<SinkState>, PyError> {
    var sent := [CreateMessage(Quoted(ClassName))];
    match reply
    case PostRaised => Success(Step(SinkState(ClassName, None), sent, true))
    case Replied(Some(id)) => Success(Step(SinkState(ClassName, Some(id)), sent, false))
    case Replied(None) => Failure(KeyError)
  }

  /**
   * `write(s)`: normalise, drop a duplicate, record the text, then submit an
   * edit; without a message id, building the request raises and the error is echoed.
   */
  function WriteStep(st: SinkState, s: string): Step<SinkState> {
    var t := Normalise(s);
    if t == st.text then Step(st, [], false)
    else match st.messageId
      case None => Step(st.(text := t), [], true)
      case Some(id) => Step(st.(text := t), [EditMessage(id, Quoted(t))], false)
  }

  /** `delete()`: submit a deletion; without a message id the error is echoed. */
  function DeleteStep(st: SinkState): Step<SinkState> {
    match st.messageId
    case None => Step(st, [], true)
    case Some(id) => Step(st, [DeleteMessage(Some(id))], false)
  }

  datatype Op = WriteOp(s: string) | DeleteOp

  function Apply(st: SinkState, op: Op): Step<SinkState> {
    match op
    case WriteOp(s) => WriteStep(st, s)
    case DeleteOp => DeleteStep(st)
  }

  /** A sequence of calls, with their requests concatenated in order. */
  function Run(st: SinkState, ops: seq<Op>): Step<SinkState>
    decreases |ops|
  {
    if ops == [] then Step(st, [], false)
    else
      var first := Apply(st, ops[0]);
      var rest := Run(first.state, ops[1..]);
      Step(rest.state, first.sent + rest.sent, first.echoed || rest.echoed)
  }

  /** A write whose normalised text equals the last text sent changes nothing and sends nothing. */
  lemma DuplicateWriteSkipped(st: SinkState, s: string)
    requires Normalise(s) == st.text
    ensures WriteStep(st, s) == Step(st, [], false)
  {
  }

  /**
   * Otherwise the text is recorded before the request is built, so it is
   * recorded even when there is no message id to edit.
   */
  lemma TextRecordedBeforeSubmit(st: SinkState, s: string)
    requires Normalise(s) != st.text
    ensures WriteStep(st, s).state == SinkState(Normalise(s), st.messageId)
    ensures WriteStep(st, s).sent == if st.messageId.Some? then [EditMessage(st.messageId.value, Quoted(Normalise(s)))] else []
    ensures WriteStep(st, s).echoed <==> st.messageId.None?
  {
  }

  /** Two identical writes in a row send at most one edit, and the second sends nothing. */
  lemma RepeatedWriteSentOnce(st: SinkState, s: string)
    ensures WriteStep(WriteStep(st, s).state, s).sent == []
    ensures |Run(st, [WriteOp(s), WriteOp(s)]).sent| <= 1
  {
    var once := WriteStep(st, s);
    var t := Normalise(s);
    if t == st.text {
      DuplicateWriteSkipped(st, s);
    } else {
      TextRecordedBeforeSubmit(st, s);
    }
    assert once.state.text == t;
    DuplicateWriteSkipped(once.state, s);
    assert Run(once.state, [WriteOp(s)]).sent == WriteStep(once.state, s).sent + [];
  }

  /** The constructor sets the text to the class name, so a first write of that name is dropped. */
  lemma FirstWriteOfClassNameDropped(reply: Reply, s: string)
    requires OpenStep(reply).Success? && Normalise(s) == ClassName
    ensures WriteStep(OpenStep(reply).value.state, s).sent == []
  {
  }

  /** Creation fails only by the post raising (swallowed) or by a reply without an id (raised). */
  lemma OpenOutcomes(reply: Reply)
    ensures OpenStep(reply).Failure? <==> reply == Replied(None)
    ensures OpenStep(reply).Success? ==> OpenStep(reply).value.state.text == ClassName
    ensures OpenStep(reply).Success? ==> (OpenStep(reply).value.state.messageId.None? <==> reply.PostRaised?)
    ensures OpenStep(reply).Success? ==> OpenStep(reply).value.echoed == reply.PostRaised?
  {
  }

  /** Without a message id, a write past the duplicate check and every delete send nothing and echo the error. */
  lemma NoIdEchoes(st: SinkState, op: Op)
    requires st.messageId.None?
    requires op.WriteOp? ==> Normalise(op.s) != st.text
    ensures Apply(st, op).sent == [] && Apply(st, op).echoed
  {
  }

  /** Without a message id, no sequence of writes and deletes ever sends a request. */
  lemma {:induction false} NoIdNoRequests(st: SinkState, ops: seq<Op>)
    requires st.messageId.None?
    ensures Run(st, ops).sent == []
    ensures Run(st, ops).state.messageId.None?
    decreases |ops|
  {
    if ops != [] {
      NoIdNoRequests(Apply(st, ops[0]).state, ops[1..]);
    }
  }

  /** With a message id, every request of a sequence of calls edits or deletes that message. */
  lemma {:induction false} RequestsTargetMessage(st: SinkState, id: MessageId, ops: seq<Op>)
    requires st.messageId == Some(id)
    ensures forall r | r in Run(st, ops).sent :: Targets(r, id)
    ensures Run(st, ops).state.messageId == Some(id)
    decreases |ops|
  {
    if ops != [] {
      RequestsTargetMessage(Apply(st, ops[0]).state, id, ops[1..]);
    }
  }

  /** `TelegramIO`: the mutable sink. */
  class TelegramIO {
    const token: Option<string>
    const chatId: Option<string>
    var text: string
    var messageId: Option<MessageId>
    /** Every request issued so far, in order. */
    ghost var requests: seq<Request>
    /** How many errors were echoed to the local display. */
    ghost var echoes: nat

    function State(): SinkState
      reads this
    {
      SinkState(text, messageId)
    }

    /** The fields now hold what `step` says, and its requests and echo were added to the logs. */
    twostate predicate Performed(step: Step<SinkState>)
      reads this
    {
      State() == step.state && requests == old(requests) + step.sent
      && echoes == old(echoes) + (if step.echoed then 1 else 0)
    }

    constructor Init(token: Option<string>, chatId: Option<string>, step: Step<SinkState>)
      ensures this.token == token && this.chatId == chatId
      ensures State() == step.state && requests == step.sent
      ensures echoes == if step.echoed then 1 else 0
    {
      this.token := token;
      this.chatId := chatId;
      text := step.state.text;
      messageId := step.state.messageId;
      requests := step.sent;
      echoes := if step.echoed then 1 else 0;
    }

    /** `TelegramIO(token, chat_id)`, which raises when the creation reply has no id. */
    static method Open(token: Option<string>, chatId: Option<string>, reply: Reply)
      returns (r: Result<TelegramIO, PyError>)
      ensures r.Failure? <==> OpenStep(reply).Failure?
      ensures r.Failure? ==> r.error == OpenStep(reply).error
      ensures r.Success? ==> fresh(r.value) && r.value.token == token && r.value.chatId == chatId
      ensures r.Success? ==> r.value.State() == OpenStep(reply).value.state
      ensures r.Success? ==> r.value.requests == OpenStep(reply).value.sent
      ensures r.Success? ==> r.value.echoes == if OpenStep(reply).value.echoed then 1 else 0
    {
      var attempt := OpenStep(reply);
      if attempt.Failure? {
        return Failure(attempt.error);
      }
      var io := new TelegramIO.Init(token, chatId, attempt.value);
      r := Success(io);
    }

    /** `write(s)`; `handed` says whether a request reached `submit` (a future was returned). */
    method Write(s: string) returns (handed: bool)
      modifies this
      ensures Performed(WriteStep(old(State()), s))
      ensures handed <==> WriteStep(old(State()), s).sent != []
    {
      var t := Normalise(s);
      if t == text {
        return false;
      }
      text := t;
      match messageId
      case None =>
        echoes := echoes + 1;
        handed := false;
      case Some(id) =>
        requests := requests + [EditMessage(id, Quoted(t))];
        handed := true;
    }

    /** `delete()`. */
    method Delete() returns (handed: bool)
      modifies this
      ensures Performed(DeleteStep(old(State())))
      ensures handed <==> messageId.Some?
    {
      match messageId
      case None =>
        echoes := echoes + 1;
        handed := false;
      case Some(id) =>
        requests := requests + [DeleteMessage(Some(id))];
        handed := true;
    }
  }

  /** The keywords `tqdm_telegram` reads; None is an absent keyword. */
  datatype Options = Options(
    disable: bool,
    token: Option<Option<string>>,
    chatId: Option<Option<string>>,
    mininterval: Option<real>)

  /** The token and chat id the bar passes to `TelegramIO`, when it builds one: an explicit keyword beats the environment. */
  function SinkArguments(kw: Options, env: map<string, string>): (r: Option<(Option<string>, Option<string>)>)
    ensures r.Some? <==> !kw.disable
    ensures r.Some? && kw.token.Some? ==> r.value.0 == kw.token.value
    ensures r.Some? && kw.token.None? ==> r.value.0 == Getenv(env, TokenVariable)
    ensures r.Some? && kw.chatId.Some? ==> r.value.1 == kw.chatId.value
    ensures r.Some? && kw.chatId.None? ==> r.value.1 == Getenv(env, ChatIdVariable)
  {
    if kw.disable then None
    else Some((KeywordOr(kw.token, Getenv(env, TokenVariable)), KeywordOr(kw.chatId, Getenv(env, ChatIdVariable))))
  }

  /** The `mininterval` passed on to the base meter: an explicit one is kept, else 1 second. */
  function Mininterval(kw: Options): (r: real)
    ensures kw.mininterval.Some? ==> r == kw.mininterval.value
    ensures kw.mininterval.None? ==> r == DefaultMininterval
  {
    KeywordOr(kw.mininterval, DefaultMininterval)
  }

  /** `tqdm_telegram`: the hooks around the base meter, with the base meter's `leave` and `pos`. */
  class TelegramBar {
    const disable: bool
    const leave: Option<bool>
    const pos: int
    const mininterval: real
    const sink: TelegramIO?

    ghost predicate Valid() {
      disable <==> sink == null
    }

    constructor Init(kw: Options, leave: Option<bool>, pos: int, sink: TelegramIO?)
      ensures this.disable == kw.disable && this.leave == leave && this.pos == pos
      ensures this.mininterval == Mininterval(kw) && this.sink == sink
    {
      disable := kw.disable;
      this.leave := leave;
      this.pos := pos;
      mininterval := Mininterval(kw);
      this.sink := sink;
    }

    /** `tqdm_telegram(..., **kwargs)`: a sink is built only when not disabled, and its constructor may raise. */
    static method Open(kw: Options, env: map<string, string>, leave: Option<bool>, pos: int, reply: Reply)
      returns (r: Result<TelegramBar, PyError>)
      ensures r.Failure? <==> !kw.disable && OpenStep(reply).Failure?
      ensures r.Success? ==> fresh(r.value) && r.value.Valid()
      ensures r.Success? ==> r.value.disable == kw.disable && r.value.leave == leave && r.value.pos == pos
      ensures r.Success? ==> r.value.mininterval == Mininterval(kw)
      ensures r.Success? && r.value.sink != null ==>
        && fresh(r.value.sink)
        && (r.value.sink.token, r.value.sink.chatId) == SinkArguments(kw, env).value
        && r.value.sink.State() == OpenStep(reply).value.state
        && r.value.sink.requests == OpenStep(reply).value.sent
    {
      var args := SinkArguments(kw, env);
      var sink: TelegramIO? := null;
      if args.Some? {
        var attempt := TelegramIO.Open(args.value.0, args.value.1, reply);
        if attempt.Failure? {
          return Failure(attempt.error);
        }
        sink := attempt.value;
      }
      var bar := new TelegramBar.Init(kw, leave, pos, sink);
      r := Success(bar);
    }

    /**
     * `display()`: send the meter rendered with the rewritten `bar_format`;
     * `render` stands for the base meter's `format_meter`. A bar built
     * disabled has no sink, and the call raises.
     */
    method Display(barFormat: Option<string>, render: string -> string) returns (r: Outcome)
      requires Valid()
      modifies sink
      ensures r.Raised? <==> sink == null
      ensures sink != null ==> sink.Performed(WriteStep(old(sink.State()), render(RewriteBarFormat(barFormat))))
    {
      if sink == null {
        return Raised(AttributeError);
      }
      var _ := sink.Write(render(RewriteBarFormat(barFormat)));
      r := Returned;
    }

    /** `clear()`: an enabled bar blanks its remote message. */
    method Clear()
      requires Valid()
      modifies sink
      ensures disable ==> sink == null
      ensures !disable ==> sink.Performed(WriteStep(old(sink.State()), ""))
    {
      if !disable {
        var _ := sink.Write("");
      }
    }

    /** `close()`: an enabled bar that is not left on screen deletes its remote message. */
    method Close()
      requires Valid()
      modifies sink
      ensures sink != null && !CloseDeletes(disable, leave, pos) ==> unchanged(sink)
      ensures CloseDeletes(disable, leave, pos) ==> sink.Performed(DeleteStep(old(sink.State())))
    {
      if disable {
        return;
      }
      if CloseDeletes(disable, leave, pos) {
        var _ := sink.Delete();
      }
    }
  }
}
