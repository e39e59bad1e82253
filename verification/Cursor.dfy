/**
 The opaque page cursor: a JSON array naming the job, the collection, the pinned journal
 sequence and the last key, in unpadded base64url behind the prefix `pc1.`.
 The JSON library is a parameter; all that is asked of it is that it reads back what it wrote.
 */
module Cursor {
  import opened Basics
  import opened Base64Url

  datatype Json =
    | JNull
    | JBool(flag: bool)
    | JInt(number: int)
    | JFloat(real)
    | JString(text: string)
    | JArray(elements: seq<Json>)
    | JObject(members: seq<(string, Json)>)

  datatype Codec = Codec(
    quote: string -> string,
    dumps: (string, string, int, string) -> seq<Octet>,
    loads: seq<Octet> -> Option<Json>)
  {
    /** `json.loads` undoes `json.dumps` on cursor payloads. */
    ghost predicate Lawful() {
      forall job, collection, sequence, key ::
        loads(dumps(job, collection, sequence, key)) ==
          Some(JArray([JInt(1), JString(job), JString(collection), JInt(sequence), JString(key)]))
    }
  }

  datatype Refusal = UnknownOrStale

  const MAX_CURSOR: nat := 8192

  function EncodeCursor(c: Codec, job: string, collection: string, sequence: int, key: string): string {
    "pc1." + Strip(Encode(c.dumps(job, collection, sequence, key)))
  }

  /** Python's `== 1`, which also holds of `true` and `1.0`. */
  predicate EqualsOne(v: Json) {
    v == JInt(1) || v == JBool(true) || v == JFloat(1.0)
  }

  /** The page request resolved to a key (none for the first page) and a journal sequence. */
  function DecodeCursor(c: Codec, latest: nat, job: string, collection: string,
                        cursor: Option<string>, at: Option<int>): Result<(Option<string>, int), Refusal>
  {
    match cursor
    case None => Ok((None, if at.None? then latest else at.value))
    case Some(text) =>
      if |text| > MAX_CURSOR || |text| < 4 || text[..4] != "pc1." then Err(UnknownOrStale)
      else
        var payload := text[4..];
        match Decode(payload + Pads(-|payload| % 4))
        case None => Err(UnknownOrStale)
        case Some(octets) => ReadPayload(c.loads(octets), latest, job, collection, at)
  }

  function ReadPayload(value: Option<Json>, latest: nat, job: string, collection: string,
                       at: Option<int>): Result<(Option<string>, int), Refusal>
  {
    if value.Some? && value.value.JArray? && |value.value.elements| == 5 then
      var e := value.value.elements;
      if EqualsOne(e[0]) && e[1] == JString(job) && e[2] == JString(collection)
         && e[3].JInt? && 0 <= e[3].number <= latest && e[4].JString?
         && (at.None? || at.value == e[3].number)
      then Ok((Some(e[4].text), e[3].number))
      else Err(UnknownOrStale)
    else Err(UnknownOrStale)
  }

  /** A cursor is four characters longer than four thirds of its payload, rounded up. */
  lemma CursorLength(c: Codec, job: string, collection: string, sequence: int, key: string)
    ensures |EncodeCursor(c, job, collection, sequence, key)|
         == 4 + (4 * |c.dumps(job, collection, sequence, key)| + 2) / 3
  {
    PaddingRecovered(c.dumps(job, collection, sequence, key));
    RawShape(c.dumps(job, collection, sequence, key));
  }

  /** Only the length test stands between an issued cursor and its payload. */
  lemma IssuedPayload(c: Codec, job: string, collection: string, sequence: int, key: string,
                      latest: nat, reader: string, scope: string, at: Option<int>)
    ensures
      var octets := c.dumps(job, collection, sequence, key);
      var text := EncodeCursor(c, job, collection, sequence, key);
      DecodeCursor(c, latest, reader, scope, Some(text), at) ==
        if |octets| <= 6141 then ReadPayload(c.loads(octets), latest, reader, scope, at)
        else Err(UnknownOrStale)
  {
    var octets := c.dumps(job, collection, sequence, key);
    var t := Strip(Encode(octets));
    CursorLength(c, job, collection, sequence, key);
    StrippedRoundTrip(octets);
    TextParts(t);
  }

  lemma TextParts(t: string)
    ensures ("pc1." + t)[..4] == "pc1." && ("pc1." + t)[4..] == t
  {
  }

  /**
   The round trip and its exact limits: an issued cursor is accepted just when its payload has
   at most 6141 octets and job, collection, journal and requested sequence all agree, and then it
   gives back the key and the sequence it was made from. Every other reader refuses it.
   */
  lemma CursorRoundTrip(c: Codec, job: string, collection: string, sequence: int, key: string,
                        latest: nat, reader: string, scope: string, at: Option<int>)
    requires c.Lawful()
    ensures
      var text := EncodeCursor(c, job, collection, sequence, key);
      var agrees := reader == job && scope == collection && 0 <= sequence <= latest
                    && (at.None? || at.value == sequence);
      DecodeCursor(c, latest, reader, scope, Some(text), at) ==
        if |c.dumps(job, collection, sequence, key)| <= 6141 && agrees
        then Ok((Some(key), sequence)) else Err(UnknownOrStale)
  {
    IssuedPayload(c, job, collection, sequence, key, latest, reader, scope, at);
  }

  /** The array that a reader's cursor must hold, for a key and a sequence, under some form of the version number. */
  ghost predicate Holds(c: Codec, text: string, job: string, collection: string, key: string, sequence: int) {
    var octets := Decode(text + Pads(-|text| % 4));
    octets.Some? && exists version ::
      && (version == JInt(1) || version == JBool(true) || version == JFloat(1.0))
      && c.loads(octets.value) ==
         Some(JArray([version, JString(job), JString(collection), JInt(sequence), JString(key)]))
  }

  /**
   Whatever text is presented: it is accepted, for a key and a sequence, if and only if it is not too long and holds
   them behind the prefix, with this job and this collection, and the sequence is a known one and the requested one.
   */
  lemma AcceptedCursorNamesReader(c: Codec, latest: nat, job: string, collection: string, text: string, at: Option<int>,
      key: string, sequence: int)
    ensures DecodeCursor(c, latest, job, collection, Some(text), at) == Ok((Some(key), sequence)) <==>
      && 4 <= |text| <= 8192 && text[..4] == "pc1." && Holds(c, text[4..], job, collection, key, sequence)
      && 0 <= sequence <= latest && (at.Some? ==> at.value == sequence)
  {
    if 4 <= |text| <= 8192 && text[..4] == "pc1." {
      var octets := Decode(text[4..] + Pads(-|text[4..]| % 4));
      if octets.Some? { PayloadIff(c.loads(octets.value), latest, job, collection, at, key, sequence); }
    }
  }

  lemma PayloadIff(value: Option<Json>, latest: nat, job: string, collection: string, at: Option<int>, key: string,
      sequence: int)
    ensures ReadPayload(value, latest, job, collection, at) == Ok((Some(key), sequence)) <==>
      && (exists version ::
            && (version == JInt(1) || version == JBool(true) || version == JFloat(1.0))
            && value == Some(JArray([version, JString(job), JString(collection), JInt(sequence), JString(key)])))
      && 0 <= sequence <= latest && (at.Some? ==> at.value == sequence)
  {
    if ReadPayload(value, latest, job, collection, at) == Ok((Some(key), sequence)) {
      var e := value.value.elements;
      assert e == [e[0], e[1], e[2], e[3], e[4]];
      assert value == Some(JArray([e[0], JString(job), JString(collection), JInt(sequence), JString(key)]));
    }
  }
}
