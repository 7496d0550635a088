/**
  The user-data codec: values are written as JSON text and stored records
  are read back as JSON where their text parses and as plain text where it
  does not. Also the user-data fetch, which decodes what it receives.
 */
module UserDataCodec {
  import opened Wrappers
  import opened Json
  import opened Backend

  /** `isJson`: the text parses; a parse failure is a `false`, never an error. */
  predicate IsJson(text: string, lib: JsonLib) {
    lib.parse(text).Some?
  }

  /** The text a record holds; a record without one reads as "". */
  function RawValue(rec: UserDataRecord): string {
    rec.value.GetOr("")
  }

  /** The value a stored text stands for: its JSON value, or the text itself. */
  function DecodeValue(text: string, lib: JsonLib): Json {
    if IsJson(text, lib) then lib.parse(text).value else Str(text)
  }

  /** What `parseUserDataRecords` returns: absent records give an empty mapping. */
  function Decoded(data: Option<UserDataRecords>, lib: JsonLib): map<string, Json> {
    if data.None? then map[]
    else map k | k in data.value :: DecodeValue(RawValue(data.value[k]), lib)
  }

  /** What `stringifyValues` returns: every value replaced by its JSON text. */
  function Encoded(data: map<string, Json>, stringify: Json -> string): map<string, string> {
    map k | k in data :: stringify(data[k])
  }

  /** `stringifyValues`: fills a fresh mapping one key at a time. */
  method StringifyValues(data: map<string, Json>, lib: JsonLib) returns (r: map<string, string>)
    ensures r == Encoded(data, lib.stringify)
  {
    r := map[];
    var pending := data.Keys;
    while pending != {}
      invariant pending <= data.Keys
      invariant r.Keys == data.Keys - pending
      invariant forall k :: k in r ==> r[k] == lib.stringify(data[k])
      decreases pending
    {
      var k :| k in pending;
      r := r[k := lib.stringify(data[k])];
      pending := pending - {k};
    }
  }

  /** `parseUserDataRecords`: fills a fresh mapping one record at a time. */
  method ParseUserDataRecords(data: Option<UserDataRecords>, lib: JsonLib) returns (r: map<string, Json>)
    ensures r == Decoded(data, lib)
  {
    r := map[];
    if data.None? {
      return;
    }
    var records := data.value;
    var pending := records.Keys;
    while pending != {}
      invariant pending <= records.Keys
      invariant r.Keys == records.Keys - pending
      invariant forall k :: k in r ==> r[k] == DecodeValue(RawValue(records[k]), lib)
      decreases pending
    {
      var k :| k in pending;
      r := r[k := DecodeValue(RawValue(records[k]), lib)];
      pending := pending - {k};
    }
  }

  /**
    Reading records back keeps exactly their keys; each value is the parsed
    text where it parses and otherwise the text itself, so malformed data
    degrades to a string instead of failing the read.
   */
  lemma DecodedRecords(records: UserDataRecords, lib: JsonLib)
    ensures Decoded(Some(records), lib).Keys == records.Keys
    ensures forall k :: k in records && lib.parse(RawValue(records[k])).None? ==>
                          Decoded(Some(records), lib)[k] == Str(RawValue(records[k]))
    ensures forall k :: k in records && lib.parse(RawValue(records[k])).Some? ==>
                          Decoded(Some(records), lib)[k] == lib.parse(RawValue(records[k])).value
  {
  }

  /** The records the backend keeps for an `UpdateUserData` call with public permission. */
  function Stored(records: map<string, string>, lastUpdated: string): UserDataRecords {
    map k | k in records :: UserDataRecord(lastUpdated, Some("Public"), Some(records[k]))
  }

  /**
    Values written with `stringifyValues` read back unchanged through
    `parseUserDataRecords`, provided the JSON library itself round-trips.
   */
  lemma StoredValuesReadBack(data: map<string, Json>, lib: JsonLib, lastUpdated: string)
    requires forall v :: lib.parse(lib.stringify(v)) == Some(v)
    ensures Decoded(Some(Stored(Encoded(data, lib.stringify), lastUpdated)), lib) == data
  {
    var stored := Stored(Encoded(data, lib.stringify), lastUpdated);
    var back := Decoded(Some(stored), lib);
    assert back.Keys == data.Keys;
    forall k | k in data
      ensures back[k] == data[k]
    {
      assert RawValue(stored[k]) == lib.stringify(data[k]);
      assert lib.parse(lib.stringify(data[k])) == Some(data[k]);
    }
  }

  /** What `getUserData` returns for a settled fetch: decoded records only on an OK status. */
  function UserDataOf(reply: Settled<UserDataResult>, lib: JsonLib): Option<map<string, Json>> {
    if reply.Fulfilled? && reply.statusOk then Some(Decoded(reply.data.data, lib)) else None
  }

  /**
    `getUserData`: one fetch of the given keys (of the given player, or of the
    logged-in one); a rejection or a non-OK status yields no value.
   */
  method GetUserData(keys: seq<string>, playFabId: Option<string>, reply: Settled<UserDataResult>, lib: JsonLib)
    returns (value: Option<map<string, Json>>, call: Effect)
    ensures call == ClientGetUserData(keys, playFabId)
    ensures value.Some? <==> reply.Fulfilled? && reply.statusOk
    ensures value.Some? ==> value.value == Decoded(reply.data.data, lib)
  {
    call := ClientGetUserData(keys, playFabId);
    value := None;
    if reply.Fulfilled? && reply.statusOk {
      var decoded := ParseUserDataRecords(reply.data.data, lib);
      value := Some(decoded);
    }
  }
}
