/** The Agent-to-Agent message protocol of
    src/orchestrator/protocols/a2a_handler.py: building requests and
    responses, validating a message's shape, and (de)serialising it. The
    message id (`uuid4`), the timestamp (`utcnow().isoformat()`) and the JSON
    encoder and parser are parameters. */
module A2aHandler {
  import opened Values

  const FieldId := "id"
  const FieldTimestamp := "timestamp"
  const FieldSender := "sender"
  const FieldReceiver := "receiver"
  const FieldType := "type"
  const FieldContent := "content"
  const FieldInReplyTo := "in_reply_to"
  const FieldStatus := "status"

  const TypeRequest := "request"
  const TypeResponse := "response"
  const TypeNotification := "notification"

  const StatusSuccess := "success"

  /** The fields every message must carry, in the order they are checked. */
  const RequiredFields: seq<string> := [FieldId, FieldTimestamp, FieldSender, FieldReceiver, FieldType, FieldContent]

  /** One of the three message types. */
  predicate ValidType(t: Json)
  {
    t == JStr(TypeRequest) || t == JStr(TypeResponse) || t == JStr(TypeNotification)
  }

  /** What a well-formed message is: all six required fields, a known type,
      and for a response also the original's id and a status. */
  ghost predicate WellFormed(m: Dict)
  {
    && FieldId in m && FieldTimestamp in m && FieldSender in m
    && FieldReceiver in m && FieldType in m && FieldContent in m
    && ValidType(m[FieldType])
    && (m[FieldType] == JStr(TypeResponse) ==> FieldInReplyTo in m && FieldStatus in m)
  }

  /** `create_message`: sender, receiver and content are copied unchanged
      under a new id and timestamp; the type defaults to "request". */
  function CreateMessage(id: string, timestamp: string, sender: string, receiver: string, content: Dict,
                         messageType: string := TypeRequest): (r: Dict)
    ensures Has(r, FieldId, JStr(id)) && Has(r, FieldTimestamp, JStr(timestamp))
    ensures Has(r, FieldSender, JStr(sender)) && Has(r, FieldReceiver, JStr(receiver))
    ensures Has(r, FieldType, JStr(messageType)) && Has(r, FieldContent, JObj(content))
    ensures FieldInReplyTo !in r && FieldStatus !in r
  {
    map[FieldId := JStr(id), FieldTimestamp := JStr(timestamp), FieldSender := JStr(sender),
        FieldReceiver := JStr(receiver), FieldType := JStr(messageType), FieldContent := JObj(content)]
  }

  /** `create_response`: the answer goes back from the original's receiver to
      its sender and points at the original's id. The original's fields are
      read as "receiver", "sender", "id", and the first one missing raises
      its KeyError. */
  function CreateResponse(original: Dict, content: Dict, id: string, timestamp: string,
                          status: string := StatusSuccess): (r: Outcome<Dict>)
    ensures FieldReceiver !in original ==> r == Raised(KeyErrorText(FieldReceiver))
    ensures FieldReceiver in original && FieldSender !in original ==> r == Raised(KeyErrorText(FieldSender))
    ensures FieldReceiver in original && FieldSender in original && FieldId !in original
            ==> r == Raised(KeyErrorText(FieldId))
    ensures r.Returned? <==> FieldReceiver in original && FieldSender in original && FieldId in original
    ensures r.Returned? ==>
      && Has(r.value, FieldSender, original[FieldReceiver])
      && Has(r.value, FieldReceiver, original[FieldSender])
      && Has(r.value, FieldInReplyTo, original[FieldId])
      && Has(r.value, FieldType, JStr(TypeResponse))
      && Has(r.value, FieldStatus, JStr(status))
      && Has(r.value, FieldContent, JObj(content))
      && Has(r.value, FieldId, JStr(id))
      && Has(r.value, FieldTimestamp, JStr(timestamp))
  {
    if FieldReceiver !in original then Raised(KeyErrorText(FieldReceiver))
    else if FieldSender !in original then Raised(KeyErrorText(FieldSender))
    else if FieldId !in original then Raised(KeyErrorText(FieldId))
    else
      Returned(map[FieldId := JStr(id), FieldTimestamp := JStr(timestamp),
                   FieldSender := original[FieldReceiver], FieldReceiver := original[FieldSender],
                   FieldType := JStr(TypeResponse), FieldInReplyTo := original[FieldId],
                   FieldStatus := JStr(status), FieldContent := JObj(content)])
  }

  /** The first of `fields` that `m` lacks, scanning in order. */
  function FirstMissing(m: Dict, fields: seq<string>): (r: Option<string>)
    ensures r.None? <==> forall i :: 0 <= i < |fields| ==> fields[i] in m
    ensures r.Some? ==> r.value in fields && r.value !in m
  {
    if fields == [] then None
    else if fields[0] !in m then Some(fields[0])
    else FirstMissing(m, fields[1..])
  }

  /** `validate_message`: the required fields in order, then the type, then
      the two extra fields of a response. True exactly for a well-formed
      message. */
  function ValidateMessage(m: Dict): (r: bool)
    ensures r <==> WellFormed(m)
  {
    if FirstMissing(m, RequiredFields).Some? then false
    else
      assert RequiredFields[0] in m && RequiredFields[1] in m && RequiredFields[2] in m
             && RequiredFields[3] in m && RequiredFields[4] in m && RequiredFields[5] in m;
      if !ValidType(m[FieldType]) then false
    else if m[FieldType] == JStr(TypeResponse) then FieldInReplyTo in m && FieldStatus in m
    else true
  }

  /** `serialize_message`: the encoder's text, or "" when it raises. */
  function SerializeMessage(m: Dict, dumps: Dict -> Option<string>): (r: string)
    ensures dumps(m).Some? ==> r == dumps(m).value
    ensures dumps(m).None? ==> r == ""
  {
    match dumps(m)
    case Some(s) => s
    case None => ""
  }

  /** `deserialize_message`: the parsed message when it is a valid dict,
      otherwise the empty dict. A parsed value that is not a dict ends there
      too: the validator either rejects it or raises on it, and the handler
      turns both into {}. */
  function DeserializeMessage(s: string, parse: string -> Option<Json>): (r: Dict)
    ensures r == map[] || ValidateMessage(r)
    ensures r != map[] <==> parse(s).Some? && parse(s).value.JObj? && ValidateMessage(parse(s).value.fields)
    ensures r != map[] ==> r == parse(s).value.fields
  {
    match parse(s)
    case Some(JObj(m)) => if ValidateMessage(m) then m else map[]
    case _ => map[]
  }

  /** Every response `create_response` builds passes validation. */
  lemma {:induction false} ResponseIsValid(original: Dict, content: Dict, id: string, timestamp: string, status: string)
    requires CreateResponse(original, content, id, timestamp, status).Returned?
    ensures ValidateMessage(CreateResponse(original, content, id, timestamp, status).value)
  {
    var r := CreateResponse(original, content, id, timestamp, status).value;
    assert FieldType in r && r[FieldType] == JStr(TypeResponse);
    assert WellFormed(r);
  }

  /** A message `create_message` builds is valid exactly when its type is
      "request" or "notification": a "response" built this way lacks
      "in_reply_to" and "status". */
  lemma {:induction false} CreatedMessageValidity(id: string, timestamp: string, sender: string, receiver: string,
                                                  content: Dict, messageType: string)
    ensures ValidateMessage(CreateMessage(id, timestamp, sender, receiver, content, messageType))
            <==> messageType == TypeRequest || messageType == TypeNotification
  {
    var m := CreateMessage(id, timestamp, sender, receiver, content, messageType);
    assert m[FieldType] == JStr(messageType);
    if messageType == TypeResponse {
      assert !WellFormed(m);
    }
  }

  /** Answering a response goes back to where the original request came
      from: the reply to the reply is addressed to the original sender. */
  lemma {:induction false} ResponseRoundTrip(original: Dict, c1: Dict, id1: string, t1: string, s1: string,
                                             c2: Dict, id2: string, t2: string, s2: string)
    requires CreateResponse(original, c1, id1, t1, s1).Returned?
    ensures var reply := CreateResponse(original, c1, id1, t1, s1).value;
      var back := CreateResponse(reply, c2, id2, t2, s2);
      && back.Returned?
      && Has(back.value, FieldSender, original[FieldSender])
      && Has(back.value, FieldReceiver, original[FieldReceiver])
      && Has(back.value, FieldInReplyTo, JStr(id1))
  {
    var reply := CreateResponse(original, c1, id1, t1, s1).value;
    assert FieldReceiver in reply && FieldSender in reply && FieldId in reply;
  }

  /** Sending then receiving a message gives it back when the parser reads
      what the encoder wrote, provided the message is valid; an invalid one
      is received as {}. */
  lemma {:induction false} SerializeRoundTrip(m: Dict, dumps: Dict -> Option<string>, parse: string -> Option<Json>)
    requires dumps(m).Some? && parse(dumps(m).value) == Some(JObj(m))
    ensures ValidateMessage(m) ==> DeserializeMessage(SerializeMessage(m, dumps), parse) == m
    ensures !ValidateMessage(m) ==> DeserializeMessage(SerializeMessage(m, dumps), parse) == map[]
  {
    assert SerializeMessage(m, dumps) == dumps(m).value;
  }

  /** A created request survives the trip through the encoder and parser. */
  lemma {:induction false} CreatedRequestRoundTrip(id: string, timestamp: string, sender: string, receiver: string,
                                                   content: Dict, dumps: Dict -> Option<string>,
                                                   parse: string -> Option<Json>)
    requires var m := CreateMessage(id, timestamp, sender, receiver, content);
      dumps(m).Some? && parse(dumps(m).value) == Some(JObj(m))
    ensures var m := CreateMessage(id, timestamp, sender, receiver, content);
      DeserializeMessage(SerializeMessage(m, dumps), parse) == m
  {
    var m := CreateMessage(id, timestamp, sender, receiver, content);
    CreatedMessageValidity(id, timestamp, sender, receiver, content, TypeRequest);
    SerializeRoundTrip(m, dumps, parse);
  }
}
