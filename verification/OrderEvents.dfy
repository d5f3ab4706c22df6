/** The wire form of an order event: the flat field list that createOrder appends to the stream, and how
    the worker reads a message back. JSON text is abstract: a field holds either plain text or a parsed
    JSON value. */
module OrderEvents {
  import opened Domain

  datatype Json = JNull | JString(text: string) | JObject(members: map<string, Json>) | JOther

  /** A stream field: plain text, JSON text with the value it parses to, or text that does not parse. */
  datatype Field = Text(text: string) | Encoded(json: Json)

  datatype Payload = Payload(
    holdId: string, orderId: string, eventId: string, seatId: string, userId: string, expiresAt: string)

  datatype Failure = Unsupported | MissingPayload | MalformedPayload | InvalidPayload

  datatype Parsed = Accepted(payload: Payload) | Refused(reason: Failure)

  type Fields = map<string, Field>

  /** The arguments of the XADD of one order. */
  function Wire(eventId: string, occurredAt: string, p: Payload): seq<Field> {
    [Text("eventId"), Text(eventId), Text("eventType"), Text("order.created"),
     Text("schemaVersion"), Text("1"), Text("occurredAt"), Text(occurredAt),
     Text("payload"), Encoded(JObject(ToJson(p)))]
  }

  function ToJson(p: Payload): map<string, Json> {
    map["holdId" := JString(p.holdId), "orderId" := JString(p.orderId), "eventId" := JString(p.eventId),
        "seatId" := JString(p.seatId), "userId" := JString(p.userId), "expiresAt" := JString(p.expiresAt)]
  }

  function KeyOf(f: Field): string {
    if f.Text? then f.text else ""
  }

  /** The record of the first n pairs of a field list; later pairs win. */
  function Pairs(raw: seq<Field>, n: nat): Fields
    requires 2 * n <= |raw|
  {
    if n == 0 then map[] else Pairs(raw, n - 1)[KeyOf(raw[2 * n - 2]) := raw[2 * n - 1]]
  }

  /** The record a field list denotes; an odd last field is dropped. */
  function Record(raw: seq<Field>): Fields {
    Pairs(raw, |raw| / 2)
  }

  method ToMessage(raw: seq<Field>) returns (fields: Fields)
    ensures fields == Record(raw)
  {
    fields := map[];
    var index := 0;
    while index < |raw|
      invariant index % 2 == 0 && index <= |raw| + 1
      invariant fields == Pairs(raw, if index <= |raw| then index / 2 else |raw| / 2)
    {
      if index + 1 < |raw| {
        fields := fields[KeyOf(raw[index]) := raw[index + 1]];
        assert 2 * (index / 2 + 1) - 2 == index;
      }
      index := index + 2;
    }
  }

  /** Among the first n pairs the i-th is the last one with this key. */
  ghost predicate LastPair(raw: seq<Field>, n: nat, key: string, i: nat)
    requires 2 * n <= |raw|
  {
    i < n && KeyOf(raw[2 * i]) == key && forall j :: i < j < n ==> KeyOf(raw[2 * j]) != key
  }

  /** A key has the value of its last complete pair, and a key without a pair is absent. */
  lemma {:induction false} LastPairWins(raw: seq<Field>, n: nat, key: string)
    requires 2 * n <= |raw|
    ensures key in Pairs(raw, n) <==> exists i :: LastPair(raw, n, key, i)
    ensures forall i :: LastPair(raw, n, key, i) ==> Pairs(raw, n)[key] == raw[2 * i + 1]
  {
    if n > 0 {
      LastPairWins(raw, n - 1, key);
      if KeyOf(raw[2 * n - 2]) == key {
        assert LastPair(raw, n, key, n - 1);
      } else {
        if key in Pairs(raw, n) {
          var i :| LastPair(raw, n - 1, key, i);
          assert LastPair(raw, n, key, i);
        }
        forall i: nat | LastPair(raw, n, key, i) ensures LastPair(raw, n - 1, key, i) {
        }
      }
    }
  }

  function Member(members: map<string, Json>, key: string): Option<string> {
    if key in members && members[key].JString? then Some(members[key].text) else None
  }

  function ParsePayload(fields: Fields): Parsed {
    if "payload" !in fields then Refused(MissingPayload)
    else if !fields["payload"].Encoded? then Refused(MalformedPayload)
    else if fields["payload"].json == JNull then Refused(MalformedPayload)
    else
      var members := if fields["payload"].json.JObject? then fields["payload"].json.members else map[];
      var h, o, e := Member(members, "holdId"), Member(members, "orderId"), Member(members, "eventId");
      var s, u, x := Member(members, "seatId"), Member(members, "userId"), Member(members, "expiresAt");
      if h.Some? && o.Some? && e.Some? && s.Some? && u.Some? && x.Some? then
        Accepted(Payload(h.value, o.value, e.value, s.value, u.value, x.value))
      else Refused(InvalidPayload)
  }

  /** What the worker makes of a delivered field list before it settles anything. */
  function Understand(raw: seq<Field>): Parsed {
    var fields := Record(raw);
    if "eventType" in fields && fields["eventType"] == Text("order.created")
       && "schemaVersion" in fields && fields["schemaVersion"] == Text("1")
    then ParsePayload(fields)
    else Refused(Unsupported)
  }

  /** What createOrder appends, the worker understands as exactly the same payload. */
  lemma WireRoundTrip(eventId: string, occurredAt: string, p: Payload)
    ensures Understand(Wire(eventId, occurredAt, p)) == Accepted(p)
  {
    var w := Wire(eventId, occurredAt, p);
    var first := map["eventId" := w[1]];
    assert Pairs(w, 1) == first;
    assert Pairs(w, 2) == first["eventType" := w[3]];
    assert Pairs(w, 3) == first["eventType" := w[3]]["schemaVersion" := w[5]];
    assert Pairs(w, 4) == first["eventType" := w[3]]["schemaVersion" := w[5]]["occurredAt" := w[7]];
    assert Record(w) == Pairs(w, 4)["payload" := w[9]];
    JsonRoundTrip(p);
  }

  lemma JsonRoundTrip(p: Payload)
    ensures var m := ToJson(p);
      && Member(m, "holdId") == Some(p.holdId) && Member(m, "orderId") == Some(p.orderId)
      && Member(m, "eventId") == Some(p.eventId) && Member(m, "seatId") == Some(p.seatId)
      && Member(m, "userId") == Some(p.userId) && Member(m, "expiresAt") == Some(p.expiresAt)
  {
    assert "eventId"[0] != "orderId"[0];
    assert "holdId"[0] != "seatId"[0] && "holdId"[0] != "userId"[0] && "seatId"[0] != "userId"[0];
  }

  /** The value of a key's last complete pair. */
  ghost predicate LastIs(raw: seq<Field>, key: string, value: Field) {
    exists i: nat :: LastPair(raw, |raw| / 2, key, i) && raw[2 * i + 1] == value
  }

  /** The payload is a JSON object whose six members are these strings. */
  ghost predicate Denotes(json: Json, p: Payload) {
    && json.JObject?
    && var m := json.members;
    && "holdId" in m && m["holdId"] == JString(p.holdId) && "orderId" in m && m["orderId"] == JString(p.orderId)
    && "eventId" in m && m["eventId"] == JString(p.eventId) && "seatId" in m && m["seatId"] == JString(p.seatId)
    && "userId" in m && m["userId"] == JString(p.userId) && "expiresAt" in m && m["expiresAt"] == JString(p.expiresAt)
  }

  lemma RecordHas(raw: seq<Field>, key: string, value: Field)
    ensures key in Record(raw) && Record(raw)[key] == value <==> LastIs(raw, key, value)
  {
    LastPairWins(raw, |raw| / 2, key);
    if LastIs(raw, key, value) {
      var i: nat :| LastPair(raw, |raw| / 2, key, i) && raw[2 * i + 1] == value;
    }
    if key in Record(raw) {
      var i: nat :| LastPair(raw, |raw| / 2, key, i);
    }
  }

  /** A message is accepted with a payload if and only if its last event type is order.created, its last
      schema version is 1, and its last payload is a JSON object with the payload's six strings. */
  lemma AcceptedExactly(raw: seq<Field>, p: Payload)
    ensures Understand(raw) == Accepted(p) <==>
      && LastIs(raw, "eventType", Text("order.created")) && LastIs(raw, "schemaVersion", Text("1"))
      && exists json :: LastIs(raw, "payload", Encoded(json)) && Denotes(json, p)
  {
    RecordHas(raw, "eventType", Text("order.created"));
    RecordHas(raw, "schemaVersion", Text("1"));
    ParsedExactly(Record(raw), p);
    forall json ensures LastIs(raw, "payload", Encoded(json)) <==> "payload" in Record(raw) && Record(raw)["payload"] == Encoded(json) {
      RecordHas(raw, "payload", Encoded(json));
    }
    if ParsePayload(Record(raw)) == Accepted(p) {
      assert LastIs(raw, "payload", Encoded(Record(raw)["payload"].json));
    }
  }

  lemma ParsedExactly(fields: Fields, p: Payload)
    ensures ParsePayload(fields) == Accepted(p) <==>
      "payload" in fields && fields["payload"].Encoded? && Denotes(fields["payload"].json, p)
  {
  }

  /** What a refusal says about the message. */
  lemma RefusedExactly(raw: seq<Field>)
    ensures var supported := LastIs(raw, "eventType", Text("order.created")) && LastIs(raw, "schemaVersion", Text("1"));
      var payload := "payload" in Record(raw);
      && (Understand(raw) == Refused(Unsupported) <==> !supported)
      && (Understand(raw) == Refused(MissingPayload) <==> supported && !payload)
      && (Understand(raw) == Refused(MalformedPayload) <==>
            supported && payload && (Record(raw)["payload"].Text? || Record(raw)["payload"] == Encoded(JNull)))
  {
    RecordHas(raw, "eventType", Text("order.created"));
    RecordHas(raw, "schemaVersion", Text("1"));
  }

  /** The five fields that createOrder appends, and no others. */
  lemma WireFields(eventId: string, occurredAt: string, p: Payload)
    ensures Record(Wire(eventId, occurredAt, p)) ==
      map["eventId" := Text(eventId), "eventType" := Text("order.created"), "schemaVersion" := Text("1"),
          "occurredAt" := Text(occurredAt), "payload" := Encoded(JObject(ToJson(p)))]
  {
    var w := Wire(eventId, occurredAt, p);
    var m1 := map["eventId" := w[1]];
    var m2 := m1["eventType" := w[3]];
    var m3 := m2["schemaVersion" := w[5]];
    var m4 := m3["occurredAt" := w[7]];
    assert Pairs(w, 1) == m1 && Pairs(w, 2) == m2 && Pairs(w, 3) == m3 && Pairs(w, 4) == m4;
    assert Record(w) == m4["payload" := w[9]];
  }
}
