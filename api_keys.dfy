/** API keys: deriving a key from random bytes, and the key table with the
    create (POST) and deactivate (DELETE) handlers that change it.

    The raw key is "cap_" followed by the hex encoding of 32 random bytes.
    Only a display prefix and a one-way hash of it are stored; the raw key
    is handed back once, in the creation response. */
module ApiKeys {
  import opened Common

  newtype byte = x: int | 0 <= x < 256

  const RawKeyLiteral := "cap_"
  const RandomByteCount := 32
  const RawKeyLength := 68
  const DisplayHeadLength := 12
  const Ellipsis := "..."
  const DefaultScopes: seq<string> := ["scoring:read", "scoring:write"]
  const OneTimeWarning := "Conservez cette clé en lieu sûr. Elle ne sera plus affichée."

  // ------------------------------------------------------------ hex encoding

  predicate IsLowerHex(c: char) {
    '0' <= c <= '9' || 'a' <= c <= 'f'
  }

  predicate AllLowerHex(s: string) {
    forall i :: 0 <= i < |s| ==> IsLowerHex(s[i])
  }

  function HexDigit(n: int): (c: char)
    requires 0 <= n < 16
    ensures IsLowerHex(c)
  {
    if n < 10 then (48 + n) as char else (87 + n) as char
  }

  function HexValue(c: char): (n: int)
    requires IsLowerHex(c)
    ensures 0 <= n < 16
    ensures HexDigit(n) == c
  {
    if c <= '9' then c as int - 48 else c as int - 87
  }

  lemma HexValueOfDigit(n: int)
    requires 0 <= n < 16
    ensures HexValue(HexDigit(n)) == n
  {
  }

  /** `Buffer.toString("hex")`: two lower-case hex digits per byte, high nibble first. */
  function HexEncode(bytes: seq<byte>): (hex: string)
    ensures |hex| == 2 * |bytes|
    ensures AllLowerHex(hex)
  {
    if bytes == [] then ""
    else [HexDigit(bytes[0] as int / 16), HexDigit(bytes[0] as int % 16)] + HexEncode(bytes[1..])
  }

  function HexDecode(hex: string): seq<byte>
    requires |hex| % 2 == 0 && AllLowerHex(hex)
  {
    if hex == [] then []
    else [(HexValue(hex[0]) * 16 + HexValue(hex[1])) as byte] + HexDecode(hex[2..])
  }

  /** Decoding undoes encoding, so no two byte strings share an encoding. */
  lemma {:induction false} HexRoundTrip(bytes: seq<byte>)
    ensures HexDecode(HexEncode(bytes)) == bytes
  {
    if bytes != [] {
      var hex := HexEncode(bytes);
      var b := bytes[0] as int;
      HexValueOfDigit(b / 16);
      HexValueOfDigit(b % 16);
      assert hex[2..] == HexEncode(bytes[1..]);
      HexRoundTrip(bytes[1..]);
    }
  }

  lemma {:induction false} HexEncodeAppend(a: seq<byte>, b: seq<byte>)
    ensures HexEncode(a + b) == HexEncode(a) + HexEncode(b)
  {
    if a != [] {
      assert (a + b)[1..] == a[1..] + b;
      HexEncodeAppend(a[1..], b);
    } else {
      assert a + b == b;
    }
  }

  // ------------------------------------------------------------ derivation

  datatype KeyMaterial = KeyMaterial(raw: string, prefix: string, hash: string)

  /** `generateApiKey`, with the 32 random bytes and the SHA-256 hex digest
      passed in. */
  function GenerateApiKey(random: seq<byte>, hash: string -> string): (k: KeyMaterial)
    requires |random| == RandomByteCount
    ensures |k.raw| == RawKeyLength && k.raw[..4] == RawKeyLiteral && AllLowerHex(k.raw[4..])
    ensures |k.prefix| == DisplayHeadLength + |Ellipsis|
    ensures k.prefix[..DisplayHeadLength] == k.raw[..DisplayHeadLength]
    ensures k.prefix[..4] == RawKeyLiteral && k.prefix[DisplayHeadLength..] == Ellipsis
    ensures k.hash == hash(k.raw)
  {
    var raw := RawKeyLiteral + HexEncode(random);
    assert raw[4..] == HexEncode(random);
    KeyMaterial(raw, raw[..DisplayHeadLength] + Ellipsis, hash(raw))
  }

  /** The display prefix shows the hex of the first four random bytes and
      nothing more: 8 of the 64 hex digits. */
  lemma PrefixShowsFirstFourBytes(random: seq<byte>, hash: string -> string)
    requires |random| == RandomByteCount
    ensures GenerateApiKey(random, hash).prefix == RawKeyLiteral + HexEncode(random[..4]) + Ellipsis
  {
    HexEncodeAppend(random[..4], random[4..]);
    assert random == random[..4] + random[4..];
    var raw := RawKeyLiteral + HexEncode(random);
    assert raw[..DisplayHeadLength] == RawKeyLiteral + HexEncode(random[..4]);
  }

  /** Two draws that agree on their first four bytes get the same prefix,
      whatever their other 28 bytes. */
  lemma PrefixIgnoresLaterBytes(r1: seq<byte>, r2: seq<byte>, hash: string -> string)
    requires |r1| == |r2| == RandomByteCount
    requires r1[..4] == r2[..4]
    ensures GenerateApiKey(r1, hash).prefix == GenerateApiKey(r2, hash).prefix
  {
    PrefixShowsFirstFourBytes(r1, hash);
    PrefixShowsFirstFourBytes(r2, hash);
  }

  /** Different random draws give different raw keys. */
  lemma DistinctDrawsGiveDistinctKeys(r1: seq<byte>, r2: seq<byte>, hash: string -> string)
    requires |r1| == |r2| == RandomByteCount
    requires r1 != r2
    ensures GenerateApiKey(r1, hash).raw != GenerateApiKey(r2, hash).raw
  {
    var k1, k2 := GenerateApiKey(r1, hash), GenerateApiKey(r2, hash);
    if k1.raw == k2.raw {
      assert k1.raw[4..] == HexEncode(r1) && k2.raw[4..] == HexEncode(r2);
      HexRoundTrip(r1);
      HexRoundTrip(r2);
      assert false;
    }
  }

  // ------------------------------------------------------------ the key table

  /** A `cap_api_keys` row as the store returns it; there is no column for
      the raw key. */
  datatype ApiKeyRow = ApiKeyRow(
    id: string,
    orgId: string,
    createdBy: string,
    name: string,
    keyPrefix: string,
    keyHash: string,
    scopes: seq<string>,
    usageCount: nat,
    isActive: bool)

  /** `update({ is_active: false }).eq("id", keyId)` on the table: the row with
      that id, if there is one, becomes inactive and nothing else changes. */
  function DeactivateRow(rows: map<string, ApiKeyRow>, keyId: string): (r: map<string, ApiKeyRow>)
    ensures r.Keys == rows.Keys
    ensures forall id :: id in rows && id != keyId ==> r[id] == rows[id]
    ensures keyId in rows ==> !r[keyId].isActive && r[keyId].(isActive := true) == rows[keyId].(isActive := true)
  {
    if keyId in rows then rows[keyId := rows[keyId].(isActive := false)] else rows
  }

  /** Deactivating twice is deactivating once. */
  lemma DeactivateIdempotent(rows: map<string, ApiKeyRow>, keyId: string)
    ensures DeactivateRow(DeactivateRow(rows, keyId), keyId) == DeactivateRow(rows, keyId)
  {
  }

  /** Deactivations of two keys commute. */
  lemma DeactivateCommutes(rows: map<string, ApiKeyRow>, a: string, b: string)
    ensures DeactivateRow(DeactivateRow(rows, a), b) == DeactivateRow(DeactivateRow(rows, b), a)
  {
  }

  datatype KeyResponse =
    | Unauthenticated
    | MissingFields
    | MissingKeyId
    | CreateFailed
    | DeactivateFailed
    | Created(key: ApiKeyRow, rawKey: string, warning: string)
    | Deactivated(id: string)
  {
    function Status(): int {
      match this
      case Unauthenticated => 401
      case MissingFields => 400
      case MissingKeyId => 400
      case CreateFailed => 500
      case DeactivateFailed => 500
      case Created(_, _, _) => 201
      case Deactivated(_) => 200
    }
  }

  class KeyStore {
    /** The `cap_api_keys` table, by row id. */
    var rows: map<string, ApiKeyRow>
    /** The one-way digest of a raw key (SHA-256, hex). */
    const hash: string -> string

    ghost predicate Valid()
      reads this
    {
      forall id :: id in rows ==> rows[id].id == id
    }

    constructor (hash: string -> string)
      ensures Valid() && rows == map[] && this.hash == hash
    {
      rows := map[];
      this.hash := hash;
    }

    /** `createApiKey`: inserts an active, unused row; scopes default to read
        and write scoring. The store refuses when `storeOk` is false or the
        id it chose is taken. */
    method CreateApiKey(
      id: string, orgId: string, createdBy: string, name: string,
      keyPrefix: string, keyHash: string, scopes: Option<seq<string>>, storeOk: bool)
      returns (row: Option<ApiKeyRow>)
      requires Valid()
      modifies this
      ensures Valid()
      ensures row.Some? <==> storeOk && id !in old(rows)
      ensures row.Some? ==>
        && row.value == ApiKeyRow(id, orgId, createdBy, name, keyPrefix, keyHash, scopes.GetOr(DefaultScopes), 0, true)
        && rows == old(rows)[id := row.value]
      ensures row.None? ==> rows == old(rows)
    {
      if !storeOk || id in rows {
        return None;
      }
      var r := ApiKeyRow(id, orgId, createdBy, name, keyPrefix, keyHash, scopes.GetOr(DefaultScopes), 0, true);
      rows := rows[id := r];
      row := Some(r);
    }

    /** `deactivateApiKey`: reports success exactly when the update raised no
        error; an id with no row is not an error. */
    method DeactivateApiKey(keyId: string, storeOk: bool) returns (ok: bool)
      requires Valid()
      modifies this
      ensures Valid()
      ensures ok == storeOk
      ensures rows == if storeOk then DeactivateRow(old(rows), keyId) else old(rows)
    {
      if storeOk {
        rows := DeactivateRow(rows, keyId);
      }
      ok := storeOk;
    }

    /** POST: `random` stands for the 32 bytes drawn for this request and
        `freshId` for the id the store assigns. */
    method Post(
      user: Option<string>, orgId: Option<string>, name: Option<string>, scopes: Option<seq<string>>,
      random: seq<byte>, freshId: string, storeOk: bool)
      returns (resp: KeyResponse)
      requires Valid()
      requires |random| == RandomByteCount
      modifies this
      ensures Valid()
      ensures user.None? ==> resp == Unauthenticated
      ensures user.Some? && !(Truthy(orgId) && Truthy(name)) ==> resp == MissingFields
      ensures !resp.Created? ==> rows == old(rows)
      ensures resp.Created? <==> user.Some? && Truthy(orgId) && Truthy(name) && storeOk && freshId !in old(rows)
      ensures resp.CreateFailed? <==> user.Some? && Truthy(orgId) && Truthy(name) && !(storeOk && freshId !in old(rows))
      ensures resp.Created? ==>
        var k := GenerateApiKey(random, hash);
        && resp.rawKey == k.raw
        && resp.warning == OneTimeWarning
        && resp.key == ApiKeyRow(freshId, orgId.value, user.value, name.value, k.prefix, k.hash, scopes.GetOr(DefaultScopes), 0, true)
        && rows == old(rows)[freshId := resp.key]
    {
      if user.None? {
        return Unauthenticated;
      }
      if !Truthy(orgId) || !Truthy(name) {
        return MissingFields;
      }
      var k := GenerateApiKey(random, hash);
      var apiKey := CreateApiKey(freshId, orgId.value, user.value, name.value, k.prefix, k.hash,
                                 Some(scopes.GetOr(DefaultScopes)), storeOk);
      if apiKey.None? {
        return CreateFailed;
      }
      resp := Created(apiKey.value, k.raw, OneTimeWarning);
    }

    /** DELETE: deactivates the key named by the `key_id` query parameter. */
    method Delete(user: Option<string>, keyId: Option<string>, storeOk: bool) returns (resp: KeyResponse)
      requires Valid()
      modifies this
      ensures Valid()
      ensures user.None? ==> resp == Unauthenticated && rows == old(rows)
      ensures user.Some? && !Truthy(keyId) ==> resp == MissingKeyId && rows == old(rows)
      ensures user.Some? && Truthy(keyId) && storeOk ==>
        resp == Deactivated(keyId.value) && rows == DeactivateRow(old(rows), keyId.value)
      ensures user.Some? && Truthy(keyId) && !storeOk ==> resp == DeactivateFailed && rows == old(rows)
    {
      if user.None? {
        return Unauthenticated;
      }
      if !Truthy(keyId) {
        return MissingKeyId;
      }
      var success := DeactivateApiKey(keyId.value, storeOk);
      if !success {
        return DeactivateFailed;
      }
      resp := Deactivated(keyId.value);
    }
  }
}
