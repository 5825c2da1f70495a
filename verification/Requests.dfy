/** What a connection's reader answers to the frames it reads. Decoding, encoding, the response head and the handlers are
    parameters: they are library code, or code over packages that are not part of this model, and may fail. */
module Requests {
  import opened Options
  import opened Outbound
  import opened Connections

  datatype Request<V> = Request(seqNo: string, cmd: string, fetchId: string, data: V)

  datatype Outcome<V> = Panics | Returns(code: nat, msg: string, cmd: string, data: Option<V>, voice: bool)

  /** A handler's outcome may differ from call to call: the first argument numbers the call and stands for the clock,
      the database and the state of the connection. */
  type Handler<V> = (nat, string, string, Frame) -> Outcome<V>

  datatype Codec<!V, !H> = Codec(
    decode: Frame -> Option<Request<V>>,
    encodeData: V -> Option<Frame>,
    newResponseHead: (string, string, string, nat, string, Option<V>) -> H,
    encodeHead: H -> Option<Frame>)

  const ILLEGAL_DATA: Frame := "数据不合法"
  const UNPROCESSABLE: Frame := "No se pudieron procesar los datos"
  const ROUTING_NOT_EXIST := 1010
  const UNDEFINED_MESSAGE := "未定义错误类型!"
  const CODE_MESSAGES: map<nat, string> := map[
    200 := "Success", 1000 := "未登录", 1001 := "参数不合法", 1002 := "非法的用户Id", 1003 := "未授权",
    1005 := "没有数据", 1004 := "系统错误", 1006 := "添加错误", 1007 := "删除错误", 1008 := "存储错误",
    1009 := "操作失败", 1010 := "路由不存在", 1062 := "DuplicateEmail"]

  function GetErrorMessage(code: nat, message: string): string {
    if message != "" then message
    else if code in CODE_MESSAGES then CODE_MESSAGES[code]
    else UNDEFINED_MESSAGE
  }

  /** A message once filled in stays as it is, which is why a voiced reply is sent twice over unchanged. */
  lemma ErrorMessageFixed(code: nat, message: string)
    ensures GetErrorMessage(code, message) != ""
    ensures forall other: nat :: GetErrorMessage(other, GetErrorMessage(code, message)) == GetErrorMessage(code, message)
  {}

  /** The text of every code when the handler gives none. */
  lemma ErrorTexts(code: nat)
    ensures var text := GetErrorMessage(code, "");
            && (code == 200 <==> text == "Success") && (code == 1000 <==> text == "未登录")
            && (code == 1001 <==> text == "参数不合法") && (code == 1002 <==> text == "非法的用户Id")
            && (code == 1003 <==> text == "未授权") && (code == 1004 <==> text == "系统错误")
            && (code == 1005 <==> text == "没有数据") && (code == 1006 <==> text == "添加错误")
            && (code == 1007 <==> text == "删除错误") && (code == 1008 <==> text == "存储错误")
            && (code == 1009 <==> text == "操作失败") && (code == 1010 <==> text == "路由不存在")
            && (code == 1062 <==> text == "DuplicateEmail")
            && (code != 200 && !(1000 <= code <= 1010) && code != 1062 <==> text == "未定义错误类型!")
  {}

  /** The outcome of routing a request: an unknown command is answered without a handler. */
  function Route<V>(handlers: map<string, Handler<V>>, call: nat, request: Request<V>, data: Frame): Outcome<V> {
    if request.cmd in handlers then handlers[request.cmd](call, request.seqNo, request.cmd, data)
    else Returns(ROUTING_NOT_EXIST, "", request.cmd, None, false)
  }

  /** The frames one incoming frame is answered with. */
  function Replies<V, H>(codec: Codec<V, H>, handlers: map<string, Handler<V>>, call: nat, message: Frame): seq<Frame> {
    match codec.decode(message)
    case None => [ILLEGAL_DATA]
    case Some(request) =>
      match codec.encodeData(request.data)
      case None => [UNPROCESSABLE]
      case Some(data) =>
        match Route(handlers, call, request, data)
        case Panics => []
        case Returns(code, msg, cmd, reply, voice) =>
          var head := codec.newResponseHead(request.seqNo, cmd, request.fetchId, code, GetErrorMessage(code, msg), reply);
          match codec.encodeHead(head)
          case None => []
          case Some(frame) => if voice then [frame, frame] else [frame]
  }

  /** The replies to the first n of a sequence of frames, in order; frame i is handled as call number i. */
  function AllReplies<V, H>(codec: Codec<V, H>, handlers: map<string, Handler<V>>, incoming: seq<Frame>, n: nat)
    : seq<Frame>
    requires n <= |incoming|
  {
    if n == 0 then []
    else AllReplies(codec, handlers, incoming, n - 1) + Replies(codec, handlers, n - 1, incoming[n - 1])
  }

  class Router<V> {
    var handlers: map<string, Handler<V>>

    constructor ()
      ensures handlers == map[]
    {
      handlers := map[];
    }

    /** A later registration under the same command replaces the earlier one. */
    method Register(key: string, value: Handler<V>)
      modifies this
      ensures handlers == old(handlers)[key := value]
    {
      handlers := handlers[key := value];
    }

    method GetHandlers(key: string) returns (value: Option<Handler<V>>)
      ensures value == if key in handlers then Some(handlers[key]) else None
    {
      value := if key in handlers then Some(handlers[key]) else None;
    }

    /** Answers one frame: the replies go onto the connection's queue in order, if it is open. */
    method ProcessData<H>(codec: Codec<V, H>, client: Client, call: nat, message: Frame)
      requires client.Valid()
      modifies client`send, client`socket
      ensures client.Valid() && client.send.closed == old(client.send.closed)
      ensures client.socket + client.send.buf == old(client.socket + client.send.buf) +
        if old(client.send.closed) then [] else Replies(codec, handlers, call, message)
    {
      var decoded := codec.decode(message);
      if decoded.None? {
        client.SendMsg(ILLEGAL_DATA);
        return;
      }
      var request := decoded.value;
      var requestData := codec.encodeData(request.data);
      if requestData.None? {
        client.SendMsg(UNPROCESSABLE);
        return;
      }
      var cmd := request.cmd;
      var code, msg, data, voice := 0, "", None, false;
      var handler := GetHandlers(cmd);
      if handler.Some? {
        var outcome := handler.value(call, request.seqNo, cmd, requestData.value);
        if outcome.Panics? {
          return;  // recovered by the deferred function
        }
        code, msg, cmd, data, voice := outcome.code, outcome.msg, outcome.cmd, outcome.data, outcome.voice;
      } else {
        code := ROUTING_NOT_EXIST;
      }
      msg := GetErrorMessage(code, msg);
      var headByte := codec.encodeHead(codec.newResponseHead(request.seqNo, cmd, request.fetchId, code, msg, data));
      if headByte.None? {
        return;
      }
      client.SendMsg(headByte.value);
      if voice {
        msg := GetErrorMessage(code, msg);
        headByte := codec.encodeHead(codec.newResponseHead(request.seqNo, cmd, request.fetchId, code, msg, data));
        if headByte.None? {
          return;
        }
        client.SendMsg(headByte.value);
      }
    }

    /** The reader: answers every frame until the socket fails, then closes the queue. */
    method Read<H>(codec: Codec<V, H>, client: Client, incoming: seq<Frame>)
      requires client.Valid()
      modifies client`send, client`socket
      ensures client.Valid() && client.send.closed
      ensures client.socket + client.send.buf == old(client.socket + client.send.buf) +
        if old(client.send.closed) then [] else AllReplies(codec, handlers, incoming, |incoming|)
    {
      ghost var base, open, table := client.socket + client.send.buf, !client.send.closed, handlers;
      for i := 0 to |incoming|
        invariant client.Valid() && client.send.closed == !open
        invariant !open ==> client.socket + client.send.buf == base
        invariant open ==> client.socket + client.send.buf == base + AllReplies(codec, table, incoming, i)
      {
        ProcessData(codec, client, i, incoming[i]);
      }
      assert client.socket + client.send.buf == base + if open then AllReplies(codec, table, incoming, |incoming|) else [];
      var _ := client.Close();
    }
  }

  /** A frame that cannot be decoded, and one whose data cannot be encoded again, each get their one fixed frame. */
  lemma FixedReplies<V, H>(codec: Codec<V, H>, handlers: map<string, Handler<V>>, call: nat, message: Frame)
    ensures var r := Replies(codec, handlers, call, message);
            && |r| <= 2
            && (codec.decode(message).None? ==> r == ["数据不合法"])
            && (codec.decode(message).Some? && codec.encodeData(codec.decode(message).value.data).None? ==>
                  r == ["No se pudieron procesar los datos"])
  {}

  /** A command without a handler is answered once, with its own name, the code 1010 and that code's text; by nothing
      only if that response cannot be encoded. */
  lemma UnknownCommandReply<V, H>(codec: Codec<V, H>, handlers: map<string, Handler<V>>, call: nat, message: Frame)
    requires codec.decode(message).Some? && codec.encodeData(codec.decode(message).value.data).Some?
    requires codec.decode(message).value.cmd !in handlers
    ensures var request := codec.decode(message).value;
            var answer := codec.encodeHead(
              codec.newResponseHead(request.seqNo, request.cmd, request.fetchId, 1010, "路由不存在", None));
            Replies(codec, handlers, call, message) == if answer.Some? then [answer.value] else []
  {
    assert GetErrorMessage(1010, "") == "路由不存在";
  }

  /** A command with a handler is answered with what its own handler returns for this sequence number, command and data:
      by nothing exactly if the handler panics or the response cannot be encoded, twice exactly if it asks for voice. */
  lemma HandledReply<V, H>(codec: Codec<V, H>, handlers: map<string, Handler<V>>, call: nat, message: Frame)
    requires codec.decode(message).Some? && codec.encodeData(codec.decode(message).value.data).Some?
    requires codec.decode(message).value.cmd in handlers
    ensures var request := codec.decode(message).value;
            var data := codec.encodeData(request.data).value;
            var r := Replies(codec, handlers, call, message);
            match handlers[request.cmd](call, request.seqNo, request.cmd, data)
            case Panics => r == []
            case Returns(code, msg, cmd, reply, voice) =>
              var text := GetErrorMessage(code, msg);
              var answer := codec.encodeHead(codec.newResponseHead(request.seqNo, cmd, request.fetchId, code, text, reply));
              && (msg != "" ==> text == msg)
              && (r == [] <==> answer.None?)
              && (|r| == 1 <==> answer.Some? && !voice)
              && (|r| == 2 <==> answer.Some? && voice)
              && (forall x | x in r :: answer == Some(x))
  {}

  /** Registering a handler changes only the answers to its own command. */
  lemma RegisterLocal<V, H>(codec: Codec<V, H>, handlers: map<string, Handler<V>>, key: string, value: Handler<V>,
      call: nat, message: Frame)
    ensures Replies(codec, handlers[key := value], call, message) == Replies(codec, handlers, call, message)
         || (codec.decode(message).Some? && codec.decode(message).value.cmd == key)
  {}

  /** The reply stream grows with the incoming frames and never answers ahead of them: the replies to a prefix are a
      prefix of the replies, and n frames get at most 2n. */
  lemma {:induction false} AllRepliesPrefix<V, H>(codec: Codec<V, H>, handlers: map<string, Handler<V>>,
      incoming: seq<Frame>, k: nat, n: nat)
    requires k <= n <= |incoming|
    ensures AllReplies(codec, handlers, incoming, k) <= AllReplies(codec, handlers, incoming, n)
    ensures |AllReplies(codec, handlers, incoming, n)| <= 2 * n
    decreases n
  {
    if n > 0 {
      FixedReplies(codec, handlers, n - 1, incoming[n - 1]);
      AllRepliesPrefix(codec, handlers, incoming, if k == n then n - 1 else k, n - 1);
    }
  }

  /** Each incoming frame owns one block of the reply stream, its own replies, and the blocks follow one another in the
      order of the frames. */
  lemma ReplyBlock<V, H>(codec: Codec<V, H>, handlers: map<string, Handler<V>>, incoming: seq<Frame>, i: nat)
    requires i < |incoming|
    ensures var all := AllReplies(codec, handlers, incoming, |incoming|);
            var from, to := |AllReplies(codec, handlers, incoming, i)|, |AllReplies(codec, handlers, incoming, i + 1)|;
            from <= to <= |all| && all[from..to] == Replies(codec, handlers, i, incoming[i])
  {
    AllRepliesPrefix(codec, handlers, incoming, i, i + 1);
    AllRepliesPrefix(codec, handlers, incoming, i + 1, |incoming|);
  }
}
