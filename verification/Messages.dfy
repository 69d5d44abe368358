/** Messages, the JSON codec as far as the client relies on it, and what storing a message keeps. */
module Messages {
  import opened Wrappers
  import opened Storage

  /** Data passed to Publish; Other stands for any further Go value. */
  datatype Data = Null | Text(text: string) | Object(fields: map<string, Data>) | Other(tag: nat)

  datatype Context = Context(tags: seq<string>, waitResponse: bool, timeout: int)

  datatype Message = Message(
    msgType: string, data: Data, context: Option<Context>, destination: string, timestamp: string)

  /** json.Marshal, which may fail, and the reading of its output. */
  datatype Codec = Codec(marshal: Data -> Option<string>, unmarshal: string -> Option<Data>)

  ghost predicate Faithful(codec: Codec) {
    forall d: Data :: codec.marshal(d).Some? ==> codec.unmarshal(codec.marshal(d).value) == Some(d)
  }

  ghost predicate WritesText(codec: Codec) { forall s: string :: codec.marshal(Text(s)).Some? }

  function PrepareData(data: Data): Data {
    match data
    case Text(s) => Object(map["data" := data])
    case _ => data
  }

  function DataAsString(codec: Codec, data: Data): Option<string> {
    if data.Null? then Some("") else codec.marshal(data)
  }

  function TagsOf(m: Message): seq<string> {
    if m.context.Some? then m.context.value.tags else []
  }

  /** The message a retry builds from a stored record. */
  function RetryMessage(v: StoredMessage, stamp: string): Message {
    Message("publish", Text(v.data),
            if |v.tags| > 0 then Some(Context(v.tags, false, 0)) else None, "", stamp)
  }

  /** The message Publish builds. */
  function NewMessage(data: Data, tags: seq<string>, entity: string, wait: bool, timeout: int, stamp: string): Message {
    Message("publish", PrepareData(data),
            if |tags| > 0 || wait then Some(Context(tags, wait, timeout)) else None, entity, stamp)
  }

  /** The record kept for a message: what the queue route stores when a send fails. */
  function RecordOf(codec: Codec, m: Message, now: int): Option<StoredMessage> {
    match DataAsString(codec, m.data)
    case Some(text) => Some(StoredMessage(text, TagsOf(m), now, TTL))
    case None => None
  }

  /** The record Publish itself stores, offline or with the queue full. */
  function DirectRecord(codec: Codec, data: Data, tags: seq<string>, now: int): Option<StoredMessage> {
    match DataAsString(codec, data)
    case Some(text) => Some(StoredMessage(text, tags, now, TTL))
    case None => None
  }

  /**
   Both routes keep the tags and a text that decodes: the queue route to the prepared data,
   the direct routes to the caller's. The two texts agree exactly when the data is no string.
   */
  lemma StoredTextDecodes(codec: Codec, data: Data, tags: seq<string>, entity: string, wait: bool, timeout: int,
                          stamp: string, now: int)
    requires Faithful(codec) && !data.Null?
    requires codec.marshal(data).Some? && codec.marshal(PrepareData(data)).Some?
    ensures var queued := RecordOf(codec, NewMessage(data, tags, entity, wait, timeout, stamp), now);
      var direct := DirectRecord(codec, data, tags, now);
      && queued.Some? && direct.Some?
      && codec.unmarshal(queued.value.data) == Some(PrepareData(data))
      && codec.unmarshal(direct.value.data) == Some(data)
      && queued.value.tags == direct.value.tags == tags
      && (queued == direct <==> !data.Text?)
  {
    if data.Text? {
      assert PrepareData(data) != data;
    }
  }

  /**
   A new message: of type "publish", with the caller's destination and time, a text wrapped as an
   object that holds it under "data" and other data as it is, and a context just when there are
   tags or a response is awaited.
   */
  lemma NewMessageCarries(data: Data, tags: seq<string>, entity: string, wait: bool, timeout: int, stamp: string)
    ensures var m := NewMessage(data, tags, entity, wait, timeout, stamp);
      && m.msgType == "publish" && m.destination == entity && m.timestamp == stamp
      && (data.Text? ==> m.data.Object? && m.data.fields.Keys == {"data"} && m.data.fields["data"] == data)
      && (!data.Text? ==> m.data == data)
      && (m.context.None? <==> tags == [] && !wait)
      && (m.context.Some? ==> m.context.value.tags == tags && m.context.value.waitResponse == wait)
      && (m.context.Some? ==> m.context.value.timeout == timeout)
  {
    assert data.Text? ==> NewMessage(data, tags, entity, wait, timeout, stamp).data.fields.Keys == {"data"};
  }

  /** A retried message carries the stored text as a string, and the stored tags; and nothing else of the original. */
  ghost predicate Carries(m: Message, v: StoredMessage, stamp: string) {
    && m.msgType == "publish" && m.data == Text(v.data) && m.destination == "" && m.timestamp == stamp
    && (v.tags == [] ==> m.context.None?)
    && (v.tags != [] ==> m.context.Some? && m.context.value.tags == v.tags)
    && (m.context.Some? ==> !m.context.value.waitResponse && m.context.value.timeout == 0)
  }

  lemma RetryCarries(v: StoredMessage, stamp: string)
    ensures Carries(RetryMessage(v, stamp), v, stamp)
  {
  }

  /** What is stored as text: nothing for no data, and the JSON text otherwise, if there is one. */
  ghost predicate StoresAs(codec: Codec, data: Data, text: string) {
    if data.Null? then text == "" else codec.marshal(data) == Some(text)
  }

  /** The record keeps a message from now on, for an hour: the text of its data, and its tags. */
  ghost predicate Keeps(codec: Codec, v: StoredMessage, m: Message, now: int) {
    && StoresAs(codec, m.data, v.data) && v.timestamp == now && v.ttl == 3600
    && v.tags == match m.context case Some(context) => context.tags case None => []
  }

  /** That is what is kept of a queued message, if its data can be encoded. */
  lemma RecordKeeps(codec: Codec, m: Message, now: int)
    ensures RecordOf(codec, m, now).Some? <==> m.data.Null? || codec.marshal(m.data).Some?
    ensures RecordOf(codec, m, now).Some? ==> Keeps(codec, RecordOf(codec, m, now).value, m, now)
  {
  }

  /** And of what Publish stores itself. */
  lemma DirectRecordKeeps(codec: Codec, data: Data, tags: seq<string>, now: int)
    ensures DirectRecord(codec, data, tags, now).Some? <==> data.Null? || codec.marshal(data).Some?
    ensures forall text :: StoresAs(codec, data, text) ==>
      DirectRecord(codec, data, tags, now) == Some(StoredMessage(text, tags, now, 3600))
  {
  }

  /**
   What a retry sends depends only on the stored text and the tags: destination, wait flag,
   timeout, type and original timestamp are erased; and its data is always a string, which
   prepared data never is.
   */
  lemma RetryErases(codec: Codec, m: Message, m': Message, now: int, stamp: string)
    requires Faithful(codec) && RecordOf(codec, m, now).Some? && RecordOf(codec, m', now).Some?
    requires !m.data.Null? && !m'.data.Null?
    ensures var r := RetryMessage(RecordOf(codec, m, now).value, stamp);
      var r' := RetryMessage(RecordOf(codec, m', now).value, stamp);
      && (r == r' <==> m.data == m'.data && TagsOf(m) == TagsOf(m'))
      && TagsOf(r) == TagsOf(m) && r.destination == "" && (r.context.Some? ==> !r.context.value.waitResponse)
      && codec.unmarshal(r.data.text) == Some(m.data)
      && forall d :: r.data != PrepareData(d)
  {
    var r := RetryMessage(RecordOf(codec, m, now).value, stamp);
    var r' := RetryMessage(RecordOf(codec, m', now).value, stamp);
    assert TagsOf(r) == TagsOf(m) && TagsOf(r') == TagsOf(m');
    if r == r' {
      assert codec.unmarshal(r.data.text) == Some(m.data) && codec.unmarshal(r'.data.text) == Some(m'.data);
    }
  }
}
