/**
 Chunked result upload, both ends: the receiver of `app/desktop_nodes/service.py` and the sending loop of
 `agents/windows_fusion_agent.py`.
 */
module Upload {
  import opened Prelude
  import opened Base64

  const CHUNK_BYTES := 131072
  const INLINE_RESULT_BYTES := 196608

  class ResultUpload {
    const nodeId: string
    const commandId: string
    const sizeBytes: nat
    const sha256: string
    var offset: nat
    /** The bytes of the temporary file. */
    var file: seq<byte>

    constructor (nodeId: string, commandId: string, sizeBytes: nat, sha256: string)
      ensures this.nodeId == nodeId && this.commandId == commandId && this.sizeBytes == sizeBytes && this.sha256 == sha256
      ensures offset == 0 && file == []
    {
      this.nodeId, this.commandId, this.sizeBytes, this.sha256 := nodeId, commandId, sizeBytes, sha256;
      offset, file := 0, [];
    }

    ghost predicate Valid()
      reads this
    {
      |file| == offset <= sizeBytes
    }
  }

  datatype Stored = Stored(nodeId: string, commandId: string, sha256: string, content: seq<byte>)

  /** What the closing post carries: the result itself, or a reference to an uploaded one. */
  datatype Delivery = Inline(content: seq<byte>) | Reference(resultId: string)

  type Command = (string, string)

  class Receiver {
    const maxBytes: nat
    const digest: seq<byte> -> string
    /** The bytes are a JSON object. */
    const isObject: seq<byte> -> bool
    /** The operation is over with this result; an uncertain one of a mutation leaves it open. */
    const closes: Delivery -> bool
    var uploads: map<string, ResultUpload>
    var results: map<string, Stored>
    /** Node and command of which the relay takes a result. */
    var awaiting: set<Command>
    /** Journalled commands that still wait in the queue: an upload may begin, a result is refused. */
    var queued: set<Command>
    var accepted: map<Command, Delivery>

    constructor (maxBytes: nat, digest: seq<byte> -> string, isObject: seq<byte> -> bool, closes: Delivery -> bool,
                 awaiting: set<Command>, queued: set<Command>)
      ensures Valid() && uploads == map[] && results == map[] && accepted == map[]
      ensures this.digest == digest && this.isObject == isObject && this.maxBytes == maxBytes && this.closes == closes
      ensures this.awaiting == awaiting && this.queued == queued
    {
      this.maxBytes, this.digest, this.isObject, this.closes := maxBytes, digest, isObject, closes;
      this.awaiting, this.queued := awaiting, queued;
      uploads, results, accepted := map[], map[], map[];
    }

    ghost predicate Valid()
      reads this, uploads.Values
    {
      && (forall u | u in uploads :: uploads[u].Valid())
      && (forall u, v | u in uploads && v in uploads && u != v :: uploads[u] != uploads[v])
    }

    /** `wellFormed`: 64 hex digits. The id is fresh. */
    method Begin(nodeId: string, commandId: string, sizeBytes: int, sha256: string, wellFormed: bool, id: string)
      returns (begun: bool)
      requires Valid() && id !in uploads
      modifies this`uploads
      ensures Valid() && fresh(uploads.Values - old(uploads.Values))
      ensures begun <==> (nodeId, commandId) in awaiting + queued && 1 <= sizeBytes <= maxBytes && wellFormed
      ensures !begun ==> uploads == old(uploads)
      ensures begun ==> id in uploads && uploads == old(uploads)[id := uploads[id]] && fresh(uploads[id])
      ensures begun ==> uploads[id].nodeId == nodeId && uploads[id].commandId == commandId
      ensures begun ==> uploads[id].sizeBytes == sizeBytes && uploads[id].sha256 == sha256 && uploads[id].offset == 0
    {
      if (nodeId, commandId) !in awaiting + queued || !(1 <= sizeBytes <= maxBytes) || !wellFormed { return false; }
      var upload := new ResultUpload(nodeId, commandId, sizeBytes, sha256);
      uploads := uploads[id := upload];
      begun := true;
    }

    /** The chunk continues this upload exactly where it stands, and fits. */
    predicate Fits(nodeId: string, id: string, offset: int, data: string)
      reads this, uploads.Values
    {
      && id in uploads && uploads[id].nodeId == nodeId
      && offset == uploads[id].offset
      && Decode(data).Some? && Decode(data).value != []
      && offset + |Decode(data).value| <= uploads[id].sizeBytes
    }

    /** Stale, repeated, undecodable, empty and oversized chunks are refused and change nothing. */
    method Append(nodeId: string, id: string, offset: int, data: string) returns (next: Option<nat>)
      requires Valid()
      modifies if id in uploads then {uploads[id]} else {}
      ensures Valid()
      ensures next.Some? <==> old(Fits(nodeId, id, offset, data))
      ensures next.None? && id in uploads ==> unchanged(uploads[id])
      ensures next.Some? ==> uploads[id].file == old(uploads[id].file) + Decode(data).value
      ensures next.Some? ==> next.value == uploads[id].offset == old(uploads[id].offset) + |Decode(data).value|
    {
      if id !in uploads || uploads[id].nodeId != nodeId { return None; }
      var upload := uploads[id];
      if offset != upload.offset { return None; }
      var decoded := Decode(data);
      if decoded.None? { return None; }
      var chunk := decoded.value;
      if chunk == [] || upload.offset + |chunk| > upload.sizeBytes { return None; }
      upload.file := upload.file + chunk;
      upload.offset := upload.offset + |chunk|;
      next := Some(upload.offset);
    }

    /** What is stored has the announced size and digest; with an injective digest it is what was announced. */
    method Finalize(nodeId: string, id: string, resultId: string) returns (stored: bool)
      requires Valid()
      modifies this`uploads, this`results
      ensures Valid()
      ensures stored <==> id in old(uploads) && old(uploads)[id].nodeId == nodeId
                          && old(uploads[id].offset) == old(uploads)[id].sizeBytes
                          && digest(old(uploads[id].file)) == old(uploads)[id].sha256 && isObject(old(uploads[id].file))
      ensures stored ==> results == old(results)[resultId := Stored(nodeId, old(uploads)[id].commandId, old(uploads)[id].sha256, old(uploads[id].file))]
      ensures stored ==> |results[resultId].content| == old(uploads)[id].sizeBytes
      ensures stored ==> forall sent | digest(sent) == old(uploads)[id].sha256 && Injective(digest) :: results[resultId].content == sent
      ensures !stored ==> results == old(results)
      ensures stored ==> uploads == old(uploads) - {id}
      ensures uploads == old(uploads) || uploads == old(uploads) - {id}
    {
      if id !in uploads || uploads[id].nodeId != nodeId { return false; }
      var upload := uploads[id];
      if upload.offset != upload.sizeBytes { return false; }
      if digest(upload.file) != upload.sha256 {
        uploads := uploads - {id};
        return false;
      }
      if !isObject(upload.file) { return false; }
      uploads := uploads - {id};
      results := results[resultId := Stored(nodeId, upload.commandId, upload.sha256, upload.file)];
      stored := true;
    }

    /** `submit_result`: taken exactly while the relay awaits one; a closing result is the last that is taken. */
    method SubmitResult(nodeId: string, commandId: string, delivery: Delivery) returns (taken: bool)
      requires Valid()
      modifies this`awaiting, this`accepted
      ensures Valid()
      ensures taken <==> (nodeId, commandId) in old(awaiting)
      ensures accepted == if taken then old(accepted)[(nodeId, commandId) := delivery] else old(accepted)
      ensures awaiting == if taken && closes(delivery) then old(awaiting) - {(nodeId, commandId)} else old(awaiting)
    {
      if (nodeId, commandId) !in awaiting { return false; }
      accepted := accepted[(nodeId, commandId) := delivery];
      if closes(delivery) {
        awaiting := awaiting - {(nodeId, commandId)};
      }
      taken := true;
    }

    /** The relay took a result for the command, and it reads as these bytes. */
    ghost predicate HasResult(command: Command, content: seq<byte>)
      reads this
    {
      ReadsAs(accepted, results, command, content)
    }
  }

  ghost predicate ReadsAs(accepted: map<Command, Delivery>, results: map<string, Stored>, command: Command, content: seq<byte>) {
    && command in accepted
    && match accepted[command]
       case Inline(c) => c == content
       case Reference(k) => k in results && results[k].content == content && results[k].commandId == command.1
  }

  /** One more stored result leaves what was taken readable. */
  lemma ReadableStays(accepted: map<Command, Delivery>, results: map<string, Stored>, more: map<string, Stored>, id: string,
                      command: Command, content: seq<byte>)
    requires id !in results && more - {id} == results - {id} && ReadsAs(accepted, results, command, content)
    ensures ReadsAs(accepted, more, command, content)
  {
    assert accepted[command].Reference? ==> accepted[command].resultId in more - {id};
  }

  ghost predicate Injective(digest: seq<byte> -> string) {
    forall a, b | digest(a) == digest(b) :: a == b
  }

  // ---------------------------------------------------------------- the agent

  /** What happens to one request: it arrives and is answered, or it or its response is lost. */
  datatype Post = Answered | RequestLost | ResponseLost

  /** Refused for good, refused for its size, or without an answer. */
  datatype Attempt = Delivered | Rejected | TooLarge | Lost

  function ChunkEnd(offset: nat, size: nat): nat {
    if offset + CHUNK_BYTES <= size then offset + CHUNK_BYTES else size
  }

  lemma NextPrefix(s: seq<byte>, offset: nat, chunk: seq<byte>)
    requires offset < |s| && chunk == s[offset..ChunkEnd(offset, |s|)]
    ensures chunk != [] && offset + |chunk| <= |s| && s[..offset] + chunk == s[..offset + |chunk|]
  {
  }

  class Agent {
    const receiver: Receiver
    const nodeId: string
    /** What one request to the `result` endpoint may weigh. */
    const maxResultBytes: nat
    /** The fate of the agent's `n`-th request. */
    const network: nat -> Post
    var posts: nat
    /** Results on disk that are not known to be settled. */
    var outbox: map<string, seq<byte>>

    constructor (receiver: Receiver, nodeId: string, maxResultBytes: nat, network: nat -> Post)
      ensures this.receiver == receiver && this.nodeId == nodeId && this.network == network && outbox == map[]
    {
      this.receiver, this.nodeId, this.maxResultBytes, this.network := receiver, nodeId, maxResultBytes, network;
      posts, outbox := 0, map[];
    }

    /** The chunk loop: when every request is answered, the receiver holds exactly what was sent. */
    method SendChunks(id: string, serialized: seq<byte>) returns (outcome: Attempt)
      requires receiver.Valid() && id in receiver.uploads && receiver.uploads[id].nodeId == nodeId
      requires receiver.uploads[id].offset == 0 && receiver.uploads[id].sizeBytes == |serialized|
      modifies this`posts, receiver.uploads[id]
      ensures receiver.Valid()
      ensures outcome.Delivered? || (outcome.Lost? && !network(posts).Answered?)
      ensures outcome.Delivered? ==> receiver.uploads[id].file == serialized
    {
      hide Decode, Encode;
      var upload := receiver.uploads[id];
      var offset := 0;
      while offset < |serialized|
        modifies this`posts, receiver.uploads[id]
        invariant receiver.Valid() && 0 <= offset <= |serialized|
        invariant offset == upload.offset == |upload.file| && upload.file == serialized[..offset]
        decreases |serialized| - offset
      {
        var chunk := serialized[offset..ChunkEnd(offset, |serialized|)];
        var data := Encode(chunk);
        DecodeEncode(chunk);
        posts := posts + 1;
        if network(posts).RequestLost? { return Lost; }
        var next := receiver.Append(nodeId, id, offset, data);
        if network(posts).ResponseLost? { return Lost; }
        NextPrefix(serialized, offset, chunk);
        offset := next.value;
      }
      outcome := Delivered;
    }

    /** Announce, send, finalize. A refusal is final, a lost message is not. */
    method UploadOnce(commandId: string, serialized: seq<byte>, id: string, resultId: string) returns (outcome: Attempt)
      requires receiver.Valid() && id !in receiver.uploads
      modifies this`posts, receiver`uploads, receiver`results
      ensures receiver.Valid() && fresh(receiver.uploads.Values - old(receiver.uploads.Values))
      ensures receiver.uploads.Keys <= old(receiver.uploads.Keys) + {id}
      ensures receiver.results - {resultId} == old(receiver.results) - {resultId}
      ensures outcome.Delivered? ==>
                resultId in receiver.results && receiver.results[resultId].content == serialized
                && receiver.results[resultId].commandId == commandId
      ensures outcome.Lost? ==> !network(posts).Answered?
      ensures !outcome.Lost? ==> outcome == if Uploadable(commandId, serialized) then Delivered else Rejected
    {
      posts := posts + 1;
      if network(posts).RequestLost? { return Lost; }
      var begun := receiver.Begin(nodeId, commandId, |serialized|, receiver.digest(serialized), true, id);
      if network(posts).ResponseLost? { return Lost; }
      if !begun { return Rejected; }
      outcome := SendChunks(id, serialized);
      if !outcome.Delivered? { return; }
      posts := posts + 1;
      if network(posts).RequestLost? { return Lost; }
      var stored := receiver.Finalize(nodeId, id, resultId);
      if network(posts).ResponseLost? { return Lost; }
      outcome := if stored then Delivered else Rejected;
    }

    /** The endpoint lets this result be uploaded. */
    predicate Uploadable(commandId: string, serialized: seq<byte>)
      reads this, receiver
    {
      && (nodeId, commandId) in receiver.awaiting + receiver.queued
      && 1 <= |serialized| <= receiver.maxBytes && receiver.isObject(serialized)
    }

    predicate Uploads(serialized: seq<byte>, inlineImage: bool) {
      inlineImage || |serialized| > INLINE_RESULT_BYTES
    }

    predicate TooHeavy(serialized: seq<byte>, inlineImage: bool, bodyBytes: nat) {
      !Uploads(serialized, inlineImage) && bodyBytes > maxResultBytes
    }

    /** The endpoint takes this result, uploaded or inline. */
    predicate Takes(commandId: string, serialized: seq<byte>, upload: bool)
      reads this, receiver
    {
      (nodeId, commandId) in receiver.awaiting && (upload ==> Uploadable(commandId, serialized))
    }

    /**
     One attempt: upload a result that is large or holds an image, then post it or the reference. The closing post
     can be lost on its way or on its way back; `bodyBytes` is what it weighs with the result inline.
     */
    method DeliverOnce(commandId: string, serialized: seq<byte>, inlineImage: bool, bodyBytes: nat, id: string, resultId: string)
      returns (outcome: Attempt)
      requires receiver.Valid() && id !in receiver.uploads && resultId !in receiver.results
      modifies this`posts, receiver`uploads, receiver`results, receiver`awaiting, receiver`accepted
      ensures receiver.Valid() && fresh(receiver.uploads.Values - old(receiver.uploads.Values))
      ensures receiver.uploads.Keys <= old(receiver.uploads.Keys) + {id}
      ensures receiver.results - {resultId} == old(receiver.results) - {resultId}
      // at most the awaited command's result is set, and only to what the agent holds
      ensures receiver.accepted == old(receiver.accepted)
              || ((nodeId, commandId) in old(receiver.awaiting) && receiver.HasResult((nodeId, commandId), serialized)
                  && receiver.accepted - {(nodeId, commandId)} == old(receiver.accepted) - {(nodeId, commandId)})
      ensures receiver.awaiting <= old(receiver.awaiting)
      ensures outcome.Delivered? ==> (nodeId, commandId) in old(receiver.awaiting) && receiver.HasResult((nodeId, commandId), serialized)
      ensures outcome.Lost? ==> !network(posts).Answered?
      ensures !outcome.Lost? ==> (outcome.Delivered? <==> old(Takes(commandId, serialized, Uploads(serialized, inlineImage)))
                                                          && !TooHeavy(serialized, inlineImage, bodyBytes))
      ensures outcome.Rejected? ==> !old(Takes(commandId, serialized, Uploads(serialized, inlineImage)))
      ensures outcome.TooLarge? ==> TooHeavy(serialized, inlineImage, bodyBytes)
    {
      hide Receiver.Valid;
      var upload := Uploads(serialized, inlineImage);
      var delivery := Inline(serialized);
      if upload {
        outcome := UploadOnce(commandId, serialized, id, resultId);
        if !outcome.Delivered? { return; }
        delivery := Reference(resultId);
      }
      posts := posts + 1;
      if network(posts).RequestLost? { return Lost; }
      if TooHeavy(serialized, inlineImage, bodyBytes) { return if network(posts).ResponseLost? then Lost else TooLarge; }
      var taken := receiver.SubmitResult(nodeId, commandId, delivery);
      if network(posts).ResponseLost? { return Lost; }
      outcome := if taken then Delivered else Rejected;
    }

    /**
     `submit_result_safely`: the result is spooled first and leaves the outbox only once it was taken or can no longer
     be. A retry after a lost answer never makes the relay hold anything but this result.
     */
    method SubmitResultSafely(commandId: string, serialized: seq<byte>, inlineImage: bool, bodyBytes: nat,
                              ids: nat -> string, resultIds: nat -> string, maxAttempts: nat) returns (delivered: bool)
      requires receiver.Valid()
      requires forall i :: ids(i) !in receiver.uploads && resultIds(i) !in receiver.results
      requires forall i, j :: i != j ==> ids(i) != ids(j) && resultIds(i) != resultIds(j)
      modifies this`posts, this`outbox, receiver`uploads, receiver`results, receiver`awaiting, receiver`accepted
      ensures receiver.Valid()
      ensures delivered ==> receiver.HasResult((nodeId, commandId), serialized)
      ensures receiver.accepted == old(receiver.accepted)
              || ((nodeId, commandId) in old(receiver.awaiting) && receiver.HasResult((nodeId, commandId), serialized)
                  && receiver.accepted - {(nodeId, commandId)} == old(receiver.accepted) - {(nodeId, commandId)})
      ensures outbox == old(outbox)[commandId := serialized] || outbox == old(outbox)[commandId := serialized] - {commandId}
      ensures commandId !in outbox ==>
                receiver.HasResult((nodeId, commandId), serialized)
                || !Takes(commandId, serialized, Uploads(serialized, inlineImage))
      ensures delivered ==> commandId !in outbox
      ensures (forall n :: network(n).Answered?) && maxAttempts > 0
              && old(Takes(commandId, serialized, Uploads(serialized, inlineImage))) && !TooHeavy(serialized, inlineImage, bodyBytes)
              ==> delivered
    {
      hide Receiver.Valid;
      outbox := outbox[commandId := serialized];
      var attempt := 0;
      while attempt < maxAttempts
        modifies this`posts, this`outbox, receiver`uploads, receiver`results, receiver`awaiting, receiver`accepted
        invariant receiver.Valid() && fresh(receiver.uploads.Values - old(receiver.uploads.Values))
        invariant forall i | i >= attempt :: ids(i) !in receiver.uploads && resultIds(i) !in receiver.results
        invariant outbox == old(outbox)[commandId := serialized]
        invariant receiver.awaiting <= old(receiver.awaiting)
        invariant receiver.accepted == old(receiver.accepted)
                  || ((nodeId, commandId) in old(receiver.awaiting) && receiver.HasResult((nodeId, commandId), serialized)
                      && receiver.accepted - {(nodeId, commandId)} == old(receiver.accepted) - {(nodeId, commandId)})
        invariant if attempt == 0 then receiver.awaiting == old(receiver.awaiting) else exists n :: !network(n).Answered?
      {
        ghost var accepted, results := receiver.accepted, receiver.results;
        var outcome := DeliverOnce(commandId, serialized, inlineImage, bodyBytes, ids(attempt), resultIds(attempt));
        assert forall k | k in receiver.results && k != resultIds(attempt) :: k in receiver.results - {resultIds(attempt)};
        if ReadsAs(accepted, results, (nodeId, commandId), serialized) {
          ReadableStays(accepted, results, receiver.results, resultIds(attempt), (nodeId, commandId), serialized);
        }
        if outcome.Delivered? {
          outbox := outbox - {commandId};
          return true;
        }
        if outcome.Rejected? {
          outbox := outbox - {commandId};
          return false;
        }
        if outcome.TooLarge? { return false; }
        assert !network(posts).Answered?;
        attempt := attempt + 1;
      }
      delivered := false;
    }
  }
}
