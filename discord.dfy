/**
 * The Discord sink (`DiscordIO`) and the Discord progress bar
 * (`tqdm_discord`). Unlike the Telegram sink, this one obtains its message
 * id lazily: every access to `message_id` while it is unset tries to create
 * the message again. The behaviour is stated on values first
 * (`SinkState`, `LookupStep`, `WriteStep`, `DeleteStep`), and the class is
 * proved against it.
 */
module Discord {
  import opened Outcomes
  import opened Text
  import opened Remote
  import opened Hooks

  /** The sink's class name: its initial text. */
  const ClassName := "DiscordIO"
  const TokenVariable := "TQDM_DISCORD_TOKEN"
  const ChannelIdVariable := "TQDM_DISCORD_CHANNEL_ID"

  /** How one creation post turned out. */
  datatype Reply =
    | PostRaised                       // the post or its JSON decoding raised; the error is echoed
    | Replied(id: Option<MessageId>)   // the decoded reply; None when it has no "id"

  /** `self.text` and `self._message_id`, which stays unset until a creation succeeds. */
  datatype SinkState = SinkState(text: string, cachedId: Option<MessageId>)

  /** What one access to the `message_id` property returns, and its effect. */
  datatype Lookup = Lookup(id: Option<MessageId>, step: Step<SinkState>)

  /** The `message_id` property: the memoised id, or a creation attempt that posts the current text. */
  function LookupStep(st: SinkState, reply: Reply): Lookup {
    if st.cachedId.Some? then Lookup(st.cachedId, Step(st, [], false))
    else
      var sent := [CreateMessage(Quoted(st.text))];
      match reply
      case PostRaised => Lookup(None, Step(st, sent, true))
      case Replied(None) => Lookup(None, Step(st, sent, false))
      case Replied(Some(id)) => Lookup(Some(id), Step(st.(cachedId := Some(id)), sent, false))
  }

  /** The constructor: set the text to the class name, then access `message_id` once. */
  function OpenStep(reply: Reply): Step<SinkState> {
    LookupStep(SinkState(ClassName, None), reply).step
  }

  /**
   * `write(s)`: normalise, drop a duplicate, look up the id (which may try a
   * creation), give up without an id, else record the text and submit a PATCH.
   */
  function WriteStep(st: SinkState, s: string, reply: Reply): Step<SinkState> {
    var t := Normalise(s);
    if t == st.text then Step(st, [], false)
    else
      var look := LookupStep(st, reply);
      match look.id
      case None => look.step
      case Some(id) => Step(look.step.state.(text := t), look.step.sent + [EditMessage(id, Quoted(t))], look.step.echoed)
  }

  /** `delete()`: look up the id and submit a DELETE for whatever it was, `None` included. */
  function DeleteStep(st: SinkState, reply: Reply): Step<SinkState> {
    var look := LookupStep(st, reply);
    Step(look.step.state, look.step.sent + [DeleteMessage(look.id)], look.step.echoed)
  }

  /** A call together with the creation reply it would get if it tried one. */
  datatype Op = WriteOp(s: string, reply: Reply) | DeleteOp(reply: Reply)

  function Apply(st: SinkState, op: Op): Step<SinkState> {
    match op
    case WriteOp(s, reply) => WriteStep(st, s, reply)
    case DeleteOp(reply) => DeleteStep(st, reply)
  }

  function Run(st: SinkState, ops: seq<Op>): Step<SinkState>
    decreases |ops|
  {
    if ops == [] then Step(st, [], false)
    else
      var first := Apply(st, ops[0]);
      var rest := Run(first.state, ops[1..]);
      Step(rest.state, first.sent + rest.sent, first.echoed || rest.echoed)
  }

  /** Once the id is memoised, `message_id` returns it and issues no creation. */
  lemma MemoisedIdReturned(st: SinkState, reply: Reply)
    requires st.cachedId.Some?
    ensures LookupStep(st, reply) == Lookup(st.cachedId, Step(st, [], false))
  {
  }

  /**
   * While the id is unset, an access posts one creation with the current
   * text; it memoises and returns the id exactly when the reply carries one,
   * and echoes an error exactly when the post raised.
   */
  lemma LookupCreates(st: SinkState, reply: Reply)
    requires st.cachedId.None?
    ensures LookupStep(st, reply).step.sent == [CreateMessage(Quoted(st.text))]
    ensures LookupStep(st, reply).id.Some? <==> reply.Replied? && reply.id.Some?
    ensures LookupStep(st, reply).step.state == st.(cachedId := LookupStep(st, reply).id)
    ensures LookupStep(st, reply).step.echoed <==> reply.PostRaised?
  {
  }

  /** A failed creation leaves the id unset, so the next access tries again. */
  lemma FailedCreationRetried(st: SinkState, first: Reply, second: Reply)
    requires st.cachedId.None? && LookupStep(st, first).id.None?
    ensures LookupStep(st, first).step.state == st
    ensures LookupStep(LookupStep(st, first).step.state, second).step.sent == [CreateMessage(Quoted(st.text))]
  {
  }

  /** A write whose normalised text equals the last text sent changes nothing and sends nothing. */
  lemma DuplicateWriteSkipped(st: SinkState, s: string, reply: Reply)
    requires Normalise(s) == st.text
    ensures WriteStep(st, s, reply) == Step(st, [], false)
  {
  }

  /** Without an id, a write returns early: the text is kept and no edit is sent. */
  lemma WriteWithoutIdKeepsText(st: SinkState, s: string, reply: Reply)
    requires Normalise(s) != st.text && LookupStep(st, reply).id.None?
    ensures WriteStep(st, s, reply).state == st
    ensures Edits(WriteStep(st, s, reply).sent) == 0
  {
  }

  /** With an id, a write records the text and sends exactly one edit of that message, last. */
  lemma WritePatchesMessage(st: SinkState, s: string, reply: Reply, id: MessageId)
    requires Normalise(s) != st.text && LookupStep(st, reply).id == Some(id)
    ensures WriteStep(st, s, reply).state == SinkState(Normalise(s), Some(id))
    ensures WriteStep(st, s, reply).sent == LookupStep(st, reply).step.sent + [EditMessage(id, Quoted(Normalise(s)))]
    ensures Edits(WriteStep(st, s, reply).sent) == 1
  {
    var look := LookupStep(st, reply);
    assert Edits(look.step.sent) == 0;
    EditsAppend(look.step.sent, [EditMessage(id, Quoted(Normalise(s)))]);
  }

  /** `delete` always submits one DELETE, of whatever id the lookup gave, even None. */
  lemma DeleteAlwaysSubmits(st: SinkState, reply: Reply)
    ensures var d := DeleteStep(st, reply);
      d.sent != [] && d.sent[|d.sent| - 1] == DeleteMessage(LookupStep(st, reply).id)
      && forall i | 0 <= i < |d.sent| - 1 :: d.sent[i].CreateMessage?
  {
  }

  /** Two identical writes in a row send at most one edit, whatever their creation replies. */
  lemma RepeatedWriteEditsOnce(st: SinkState, s: string, first: Reply, second: Reply)
    ensures var w := WriteStep(st, s, first);
      Edits(w.sent + WriteStep(w.state, s, second).sent) <= 1
  {
    var w := WriteStep(st, s, first);
    var w2 := WriteStep(w.state, s, second);
    EditsAppend(w.sent, w2.sent);
    var n := Normalise(s);
    if n != st.text {
      var look := LookupStep(st, first);
      if look.id.None? {
        assert Edits(w.sent) == 0 by { assert w.sent == look.step.sent; }
        if n != w.state.text && LookupStep(w.state, second).id.Some? {
          WritePatchesMessage(w.state, s, second, LookupStep(w.state, second).id.value);
        } else if n != w.state.text {
          WriteWithoutIdKeepsText(w.state, s, second);
        }
      } else {
        WritePatchesMessage(st, s, first, look.id.value);
        assert w2.sent == [];
      }
    }
  }

  /** Once the id is memoised, every request of a sequence of calls edits or deletes that message: none creates. */
  lemma {:induction false} RequestsTargetMessage(st: SinkState, id: MessageId, ops: seq<Op>)
    requires st.cachedId == Some(id)
    ensures forall r | r in Run(st, ops).sent :: Targets(r, id)
    ensures Run(st, ops).state.cachedId == Some(id)
    decreases |ops|
  {
    if ops != [] {
      RequestsTargetMessage(Apply(st, ops[0]).state, id, ops[1..]);
    }
  }

  /** `DiscordIO`: the mutable sink. */
  class DiscordIO {
    const token: Option<string>
    const channelId: Option<string>
    var text: string
    var cachedId: Option<MessageId>
    /** Every request issued so far, in order. */
    ghost var requests: seq<Request>
    /** How many errors were echoed to the local display. */
    ghost var echoes: nat

    function State(): SinkState
      reads this
    {
      SinkState(text, cachedId)
    }

    /** The fields now hold what `step` says, and its requests and echo were added to the logs. */
    twostate predicate Performed(step: Step<SinkState>)
      reads this
    {
      State() == step.state && requests == old(requests) + step.sent
      && echoes == old(echoes) + (if step.echoed then 1 else 0)
    }

    /** `DiscordIO(token, channel_id)`: never raises; creation failures leave the id unset. */
    constructor (token: Option<string>, channelId: Option<string>, reply: Reply)
      ensures this.token == token && this.channelId == channelId
      ensures State() == OpenStep(reply).state && requests == OpenStep(reply).sent
      ensures echoes == if OpenStep(reply).echoed then 1 else 0
    {
      this.token := token;
      this.channelId := channelId;
      text := ClassName;
      cachedId := None;
      requests := [];
      echoes := 0;
      new;
      var _ := MessageIdProperty(reply);
    }

    /** The `message_id` property. */
    method MessageIdProperty(reply: Reply) returns (id: Option<MessageId>)
      modifies this
      ensures Performed(LookupStep(old(State()), reply).step)
      ensures id == LookupStep(old(State()), reply).id
    {
      if cachedId.Some? {
        return cachedId;
      }
      requests := requests + [CreateMessage(Quoted(text))];
      match reply
      case PostRaised =>
        echoes := echoes + 1;
        id := None;
      case Replied(None) =>
        id := None;
      case Replied(Some(created)) =>
        cachedId := Some(created);
        id := cachedId;
    }

    /** `write(s)`; `handed` says whether a PATCH reached `submit`. */
    method Write(s: string, reply: Reply) returns (handed: bool)
      modifies this
      ensures Performed(WriteStep(old(State()), s, reply))
      ensures handed <==> Edits(WriteStep(old(State()), s, reply).sent) == 1
    {
      var t := Normalise(s);
      ghost var before := State();
      ghost var requests0 := requests;
      if t == text {
        DuplicateWriteSkipped(before, s, reply);
        return false;
      }
      ghost var look := LookupStep(before, reply);
      var id := MessageIdProperty(reply);
      assert State() == look.step.state && requests == requests0 + look.step.sent;
      if id.None? {
        WriteWithoutIdKeepsText(before, s, reply);
        assert WriteStep(before, s, reply) == look.step;
        return false;
      }
      text := t;
      requests := requests + [EditMessage(id.value, Quoted(t))];
      WritePatchesMessage(before, s, reply, id.value);
      assert requests == requests0 + WriteStep(before, s, reply).sent;
      handed := true;
    }

    /** `delete()`: always hands a DELETE to `submit`. */
    method Delete(reply: Reply) returns (handed: bool)
      modifies this
      ensures Performed(DeleteStep(old(State()), reply))
      ensures handed
    {
      var id := MessageIdProperty(reply);
      requests := requests + [DeleteMessage(id)];
      handed := true;
    }
  }

  /** The keywords `tqdm_discord` reads; None is an absent keyword. */
  datatype Options = Options(
    disable: bool,
    token: Option<Option<string>>,
    channelId: Option<Option<string>>)

  /** The token and channel id the bar passes to `DiscordIO`, when it builds one: an explicit keyword beats the environment. */
  function SinkArguments(kw: Options, env: map<string, string>): (r: Option<(Option<string>, Option<string>)>)
    ensures r.Some? <==> !kw.disable
    ensures r.Some? && kw.token.Some? ==> r.value.0 == kw.token.value
    ensures r.Some? && kw.token.None? ==> r.value.0 == Getenv(env, TokenVariable)
    ensures r.Some? && kw.channelId.Some? ==> r.value.1 == kw.channelId.value
    ensures r.Some? && kw.channelId.None? ==> r.value.1 == Getenv(env, ChannelIdVariable)
  {
    if kw.disable then None
    else Some((KeywordOr(kw.token, Getenv(env, TokenVariable)), KeywordOr(kw.channelId, Getenv(env, ChannelIdVariable))))
  }

  /** `tqdm_discord`: the hooks around the base meter, with the base meter's `leave` and `pos`. */
  class DiscordBar {
    const disable: bool
    const leave: Option<bool>
    const pos: int
    const sink: DiscordIO?

    ghost predicate Valid() {
      disable <==> sink == null
    }

    /** `tqdm_discord(..., **kwargs)`: a sink is built only when not disabled. */
    constructor (kw: Options, env: map<string, string>, leave: Option<bool>, pos: int, reply: Reply)
      ensures Valid()
      ensures disable == kw.disable && this.leave == leave && this.pos == pos
      ensures sink != null ==>
        && fresh(sink)
        && (sink.token, sink.channelId) == SinkArguments(kw, env).value
        && sink.State() == OpenStep(reply).state
        && sink.requests == OpenStep(reply).sent
    {
      disable := kw.disable;
      this.leave := leave;
      this.pos := pos;
      var args := SinkArguments(kw, env);
      if args.Some? {
        sink := new DiscordIO(args.value.0, args.value.1, reply);
      } else {
        sink := null;
      }
    }

    /**
     * `display()`: send the meter rendered with the rewritten `bar_format`;
     * `render` stands for the base meter's `format_meter`. A bar built
     * disabled has no sink, and the call raises.
     */
    method Display(barFormat: Option<string>, render: string -> string, reply: Reply) returns (r: Outcome)
      requires Valid()
      modifies sink
      ensures r.Raised? <==> sink == null
      ensures sink != null ==> sink.Performed(WriteStep(old(sink.State()), render(RewriteBarFormat(barFormat)), reply))
    {
      if sink == null {
        return Raised(AttributeError);
      }
      var _ := sink.Write(render(RewriteBarFormat(barFormat)), reply);
      r := Returned;
    }

    /** `clear()`: an enabled bar blanks its remote message. */
    method Clear(reply: Reply)
      requires Valid()
      modifies sink
      ensures disable ==> sink == null
      ensures !disable ==> sink.Performed(WriteStep(old(sink.State()), "", reply))
    {
      if !disable {
        var _ := sink.Write("", reply);
      }
    }

    /** `close()`: an enabled bar that is not left on screen deletes its remote message. */
    method Close(reply: Reply)
      requires Valid()
      modifies sink
      ensures sink != null && !CloseDeletes(disable, leave, pos) ==> unchanged(sink)
      ensures CloseDeletes(disable, leave, pos) ==> sink.Performed(DeleteStep(old(sink.State()), reply))
    {
      if disable {
        return;
      }
      if CloseDeletes(disable, leave, pos) {
        var _ := sink.Delete(reply);
      }
    }
  }
}
