/**
  The WARC archive data model of the l4log handler: two captured traffic
  directions become one archive made of an info record, a request record
  and a response record.
 */
module L4Log {
  import opened GoStrings

  /** A `uuid.UUID`: sixteen bytes. */
  type Uuid = s: seq<Byte> | |s| == 16 witness seq(16, _ => 0)

  /** The three identifiers `CreateWarc` draws from `uuid.New()`, in the
      order it draws them: for the info, the request and the response
      record. They are inputs here because the draws are random. */
  datatype RecordIds = RecordIds(info: Uuid, request: Uuid, response: Uuid)

  /** The `warcinfo` record: an id and the capture's timestamp.
      Timestamps, like the target URI and the public IP below, are Go
      strings that are only copied, never inspected, so they are held as
      opaque text; only record content is held as bytes. */
  datatype WarcInfoRecord = WarcInfoRecord(uuid: Uuid, timestamp: string)

  /** A request or response record: an id, a timestamp and the captured
      bytes, held as a Go string. */
  datatype WarcMessageRecord = WarcMessageRecord(uuid: Uuid, timestamp: string, content: GoString)
  {
    /** The size of the record's content: the number of bytes it holds,
        zero exactly when it holds none. */
    function ContentLength(): (n: nat)
      ensures n == |content|
      ensures n == 0 <==> content == []
    {
      |content|
    }
  }

  /** One captured direction of traffic: when it was observed (an RFC 3339
      timestamp, opaque here) and the raw bytes. */
  datatype Message = Message(timestamp: string, content: seq<Byte>)

  /** The archive handed to the renderer. `targetUri` and `publicIp` are
      opaque text, as the timestamps are. */
  datatype Warc = Warc(
    info: WarcInfoRecord,
    request: WarcMessageRecord,
    response: WarcMessageRecord,
    targetUri: string,
    publicIp: string)

  /** The placeholders `CreateWarc` writes for the target URI and the
      public IP, whatever it captured. */
  const TargetUriPlaceholder: string := "a"
  const PublicIpPlaceholder: string := "b"

  /** The ids an archive carries, one per record. */
  function IdsOf(w: Warc): (ids: RecordIds)
  {
    RecordIds(w.info.uuid, w.request.uuid, w.response.uuid)
  }

  /** The request direction, projected from the request record's fields. */
  function RequestOf(w: Warc): (req: Message)
  {
    Message(w.request.timestamp, w.request.content)
  }

  /** The response direction, projected from the response record's fields. */
  function ResponseOf(w: Warc): (res: Message)
  {
    Message(w.response.timestamp, w.response.content)
  }

  /** The shape of every archive `CreateWarc` builds: the info record is
      stamped like the request record and the target URI and public IP
      are the placeholders. */
  predicate WellFormed(w: Warc)
  {
    && w.info.timestamp == w.request.timestamp
    && w.targetUri == TargetUriPlaceholder
    && w.publicIp == PublicIpPlaceholder
  }

  /** Builds the archive of one capture. The archive is well formed, keeps
      each direction's timestamp and bytes exactly as captured (projecting the
      record fields gives `req` and `res` again), gives each record the id drawn for
      it, and each message record's length is the byte count of the
      direction it captured. */
  function CreateWarc(req: Message, res: Message, ids: RecordIds): (w: Warc)
    ensures WellFormed(w)
    ensures RequestOf(w) == req && ResponseOf(w) == res
    ensures w.info.timestamp == req.timestamp
    ensures IdsOf(w) == ids
    ensures w.request.ContentLength() == |req.content|
    ensures w.response.ContentLength() == |res.content|
  {
    var info := WarcInfoRecord(ids.info, req.timestamp);
    var request := WarcMessageRecord(ids.request, req.timestamp, StringOfBytes(req.content));
    var response := WarcMessageRecord(ids.response, res.timestamp, StringOfBytes(res.content));
    Warc(info, request, response, TargetUriPlaceholder, PublicIpPlaceholder)
  }

  /** The well-formed archives are exactly the archives `CreateWarc` builds:
      each one is built from the messages and ids projected from it. */
  lemma WellFormedIsImage(w: Warc)
    ensures WellFormed(w) <==> exists req, res, ids :: CreateWarc(req, res, ids) == w
  {
    if WellFormed(w) {
      assert CreateWarc(RequestOf(w), ResponseOf(w), IdsOf(w)) == w;
    }
  }

  /** Two captures that differ in anything (a timestamp, a byte, an id)
      never yield the same archive. */
  lemma CreateWarcInjective(req1: Message, res1: Message, ids1: RecordIds, req2: Message, res2: Message, ids2: RecordIds)
    requires CreateWarc(req1, res1, ids1) == CreateWarc(req2, res2, ids2)
    ensures req1 == req2 && res1 == res2 && ids1 == ids2
  {
  }

  /** The response direction reaches neither the info record nor the
      request record. */
  lemma ResponseDoesNotReachRequest(req: Message, res1: Message, res2: Message, ids: RecordIds)
    ensures CreateWarc(req, res1, ids).info == CreateWarc(req, res2, ids).info
    ensures CreateWarc(req, res1, ids).request == CreateWarc(req, res2, ids).request
  {
  }

  /** The request direction never reaches the response record, and the
      request's bytes never reach the info record. */
  lemma RequestDoesNotReachResponse(req1: Message, req2: Message, res: Message, ids: RecordIds)
    ensures CreateWarc(req1, res, ids).response == CreateWarc(req2, res, ids).response
    ensures req1.timestamp == req2.timestamp ==>
              CreateWarc(req1, res, ids).info == CreateWarc(req2, res, ids).info
  {
  }

  /** Replaces the three record ids of an archive. */
  function WithIds(w: Warc, ids: RecordIds): (w': Warc)
  {
    w.(info := w.info.(uuid := ids.info),
       request := w.request.(uuid := ids.request),
       response := w.response.(uuid := ids.response))
  }

  /** The ids reach the records' id fields and nothing else: building with
      other ids is building with these and swapping the ids in. */
  lemma IdsReachOnlyIdFields(req: Message, res: Message, ids1: RecordIds, ids2: RecordIds)
    ensures CreateWarc(req, res, ids1) == WithIds(CreateWarc(req, res, ids2), ids1)
  {
  }

  /** The three records of an archive carry three different ids. */
  predicate DistinctIds(w: Warc)
  {
    && w.info.uuid != w.request.uuid
    && w.info.uuid != w.response.uuid
    && w.request.uuid != w.response.uuid
  }

  /** The records' ids are distinct exactly when the three draws are:
      `CreateWarc` neither reuses nor merges an id. */
  lemma DistinctIdsIffDistinctDraws(req: Message, res: Message, ids: RecordIds)
    ensures DistinctIds(CreateWarc(req, res, ids)) <==>
              ids.info != ids.request && ids.info != ids.response && ids.request != ids.response
  {
  }

  /** A client that sends five bytes and a server that sends nothing: the
      archive still holds both records, with lengths five and zero. */
  lemma SilentServerLengths(reqTime: string, resTime: string, sent: seq<Byte>, ids: RecordIds)
    requires |sent| == 5
    ensures CreateWarc(Message(reqTime, sent), Message(resTime, []), ids).request.ContentLength() == 5
    ensures CreateWarc(Message(reqTime, sent), Message(resTime, []), ids).response.ContentLength() == 0
    ensures CreateWarc(Message(reqTime, sent), Message(resTime, []), ids).response.content == []
  {
  }
}
