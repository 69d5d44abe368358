/** What a call to Publish can be told, and what storing its data directly comes to. */
module Publishing {
  import opened Wrappers
  import opened Keys
  import opened Storage
  import opened Messages
  import opened Consumer

  datatype PublishError = NotSent | Unencodable | NotStored | Full

  /** Storing data under a key, with what becomes of the bucket and what the caller is told. */
  ghost predicate StoredOrRefused(codec: Codec, data: Data, tags: seq<string>, key: Key, now: int, commits: bool,
                                  before: seq<Record>, after: seq<Record>, result: Option<PublishError>) {
    if !data.Null? && codec.marshal(data).None? then after == before && result == Some(Unencodable)
    else if !commits then after == before && result == Some(NotStored)
    else
      var text := if data.Null? then "" else codec.marshal(data).value;
      after == Put(before, key, StoredMessage(text, tags, now, 3600)) && result == None
  }

  /** The arguments of a call that awaits no response, with the key, the reading and the luck of its store. */
  datatype Posting = Posting(data: Data, tags: seq<string>, entity: string, timeout: int, stamp: string,
                             key: Key, now: int, commits: bool)

  function MessageOf(p: Posting): Message { NewMessage(p.data, p.tags, p.entity, false, p.timeout, p.stamp) }

  ghost predicate Offline(s: Snap) { s.trace != [] && !s.trace[|s.trace| - 1].online }

  /** What Publish promises in managed mode with storage on: from s to u, with this result. */
  ghost predicate Posted(c: Setup, p: Posting, s: Snap, u: Snap, result: Option<PublishError>) {
    if Offline(s) || |s.queue| >= c.capacity then
      && u == s.(bucket := u.bucket)
      && StoredOrRefused(c.codec, p.data, p.tags, p.key, p.now, p.commits, s.bucket, u.bucket, result)
    else u == s.(queue := s.queue + [MessageOf(p)]) && result == None
  }
}
