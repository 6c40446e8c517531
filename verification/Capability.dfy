/**
 * Channel-secret capability ids (packages/gateway/src/channel-secret-capability.ts): printer,
 * parser and verifier, and the canonical inputs their message authentication codes cover.
 * The keyed HMAC is an uninterpreted function from canonical text to 32 bytes.
 */
module Capability {
  import opened Prelude
  import opened Base64Url

  const SCOPE_DOMAIN := "eden3-channel-cap-v1"
  const REQUESTER_DOMAIN := "eden3-channel-request-v2"
  const MAC_BYTES := 16
  const EPOCH_MAX := 999_999

  type Hmac = string -> seq<Byte>

  ghost predicate IsHmac(hmac: Hmac) {
    forall text :: |hmac(text)| == 32
  }

  // ---------------------------------------------------------------------------
  // The id language
  // ---------------------------------------------------------------------------

  predicate IsHex(c: char) {
    '0' <= c <= '9' || 'a' <= c <= 'f'
  }

  predicate IsUuidChar(i: int, c: char) {
    if i == 8 || i == 13 || i == 18 || i == 23 then c == '-'
    else if i == 14 then '1' <= c <= '5'
    else if i == 19 then c == '8' || c == '9' || c == 'a' || c == 'b'
    else IsHex(c)
  }

  predicate IsUuid(s: string) {
    |s| == 36 && forall i :: 0 <= i < 36 ==> IsUuidChar(i, s[i])
  }

  predicate IsEpoch(s: string) {
    2 <= |s| <= 7 && s[0] == 'c' && forall i :: 1 <= i < |s| ==> '0' <= s[i] <= '9'
  }

  predicate IsMac(s: string) {
    |s| == 22 && AllDigits(s)
  }

  datatype Decision = CapabilityId(connectionId: string, epoch: string, mac: string) | LegacyId(connectionId: string) | Malformed

  function PrintCapability(connectionId: string, epoch: string, mac: string): string {
    "channel/" + connectionId + "." + epoch + "." + mac
  }

  function PrintLegacy(connectionId: string): string {
    "channel/" + connectionId
  }

  /** The capability pattern: only the epoch has a variable length, so the cuts are fixed by the total length. */
  function ParseCapability(id: string): Option<Decision> {
    var dot := |id| - 23;
    if dot >= 45 && id[..8] == "channel/" && IsUuid(id[8..44]) && id[44] == '.' && IsEpoch(id[45..dot]) &&
       id[dot] == '.' && IsMac(id[dot + 1..])
    then Some(CapabilityId(id[8..44], id[45..dot], id[dot + 1..]))
    else None
  }

  function Parse(id: string): Decision {
    var capability := ParseCapability(id);
    if capability.Some? then capability.value
    else if |id| == 44 && id[..8] == "channel/" && IsUuid(id[8..]) then LegacyId(id[8..])
    else Malformed
  }

  lemma PrintedCuts(connectionId: string, epoch: string, mac: string)
    requires |connectionId| == 36 && |mac| == 22
    ensures var id := PrintCapability(connectionId, epoch, mac);
            && |id| == 68 + |epoch|
            && id[..8] == "channel/" && id[8..44] == connectionId && id[44] == '.'
            && id[45..|id| - 23] == epoch && id[|id| - 23] == '.' && id[|id| - 22..] == mac
  {
  }

  /** Reading is the exact inverse of printing: an id parses to given parts exactly when it is their print. */
  lemma ParseIffPrinted(id: string, connectionId: string, epoch: string, mac: string)
    ensures Parse(id) == CapabilityId(connectionId, epoch, mac) <==>
            IsUuid(connectionId) && IsEpoch(epoch) && IsMac(mac) && id == PrintCapability(connectionId, epoch, mac)
  {
    if IsUuid(connectionId) && IsEpoch(epoch) && IsMac(mac) && id == PrintCapability(connectionId, epoch, mac) {
      PrintedCuts(connectionId, epoch, mac);
    }
  }

  lemma ParseLegacyIffPrinted(id: string, connectionId: string)
    ensures Parse(id) == LegacyId(connectionId) <==> IsUuid(connectionId) && id == PrintLegacy(connectionId)
  {
    if IsUuid(connectionId) && id == PrintLegacy(connectionId) {
      assert id[8..] == connectionId && id[..8] == "channel/";
    }
  }

  // ---------------------------------------------------------------------------
  // Canonical text
  // ---------------------------------------------------------------------------

  predicate IsPart(s: string) {
    |s| > 0 && '\0' !in s
  }

  predicate AllParts(parts: seq<string>) {
    forall i :: 0 <= i < |parts| ==> IsPart(parts[i])
  }

  /** `parts.join('\0')`. */
  function JoinNul(parts: seq<string>): string {
    if |parts| == 0 then ""
    else if |parts| == 1 then parts[0]
    else parts[0] + "\0" + JoinNul(parts[1..])
  }

  lemma NulAt(front: string, rest: string)
    requires '\0' !in front
    ensures (front + "\0" + rest)[|front|] == '\0'
    ensures forall i :: 0 <= i < |front| ==> (front + "\0" + rest)[i] != '\0'
    ensures (front + "\0" + rest)[..|front|] == front && (front + "\0" + rest)[|front| + 1..] == rest
  {
    assert forall i :: 0 <= i < |front| ==> (front + "\0" + rest)[i] == front[i];
  }

  /** Text up to its first NUL determines the text before it and what follows. */
  lemma FirstNul(a: string, b: string, restA: string, restB: string)
    requires '\0' !in a && '\0' !in b
    requires a + "\0" + restA == b + "\0" + restB
    ensures a == b && restA == restB
  {
    NulAt(a, restA);
    NulAt(b, restB);
  }

  lemma SeveralHaveNul(parts: seq<string>)
    requires |parts| >= 2
    ensures '\0' in JoinNul(parts)
  {
    assert JoinNul(parts)[|parts[0]|] == '\0';
  }

  /** Joining non-empty NUL-free parts loses nothing, whatever the numbers of parts. */
  lemma {:induction false} JoinNulInjective(p: seq<string>, q: seq<string>)
    requires AllParts(p) && AllParts(q) && JoinNul(p) == JoinNul(q)
    ensures p == q
  {
    if |p| >= 2 {
      SeveralHaveNul(p);
    }
    if |q| >= 2 {
      SeveralHaveNul(q);
    }
    if |p| >= 2 && |q| >= 2 {
      FirstNul(p[0], q[0], JoinNul(p[1..]), JoinNul(q[1..]));
      JoinNulInjective(p[1..], q[1..]);
      assert p == [p[0]] + p[1..] && q == [q[0]] + q[1..];
    }
  }

  // ---------------------------------------------------------------------------
  // Minting
  // ---------------------------------------------------------------------------

  datatype Scope = Scope(connectionId: string, accountId: string, channel: string, runtimeAccountId: string, epoch: string)

  datatype MintError = InvalidConnectionId | InvalidEpoch | InvalidScope | FailedSelfParse

  function ScopeParts(scope: Scope): seq<string> {
    [SCOPE_DOMAIN, scope.connectionId, scope.accountId, scope.channel, scope.runtimeAccountId, scope.epoch]
  }

  function CanonicalScope(scope: Scope): Option<string> {
    if AllParts(ScopeParts(scope)) then Some(JoinNul(ScopeParts(scope))) else None
  }

  function CapabilityMac(hmac: Hmac, scope: Scope): Option<seq<Byte>>
    requires IsHmac(hmac)
  {
    var text := CanonicalScope(scope);
    if text.None? then None else Some(hmac(text.value)[..MAC_BYTES])
  }

  function Mint(hmac: Hmac, scope: Scope): Result<string, MintError>
    requires IsHmac(hmac)
  {
    if !IsUuid(scope.connectionId) then Err(InvalidConnectionId)
    else if !IsEpoch(scope.epoch) then Err(InvalidEpoch)
    else
      var mac := CapabilityMac(hmac, scope);
      if mac.None? then Err(InvalidScope)
      else
        var id := PrintCapability(scope.connectionId, scope.epoch, Encode(mac.value));
        if Parse(id).CapabilityId? then Ok(id) else Err(FailedSelfParse)
  }

  /** The self-check after minting never fails: a valid scope is always minted. */
  lemma MintSucceedsIff(hmac: Hmac, scope: Scope)
    requires IsHmac(hmac)
    ensures Mint(hmac, scope).Ok? <==> IsUuid(scope.connectionId) && IsEpoch(scope.epoch) && CanonicalScope(scope).Some?
    ensures Mint(hmac, scope).Ok? ==>
              Mint(hmac, scope).value ==
              PrintCapability(scope.connectionId, scope.epoch, Encode(hmac(CanonicalScope(scope).value)[..MAC_BYTES]))
  {
    if IsUuid(scope.connectionId) && IsEpoch(scope.epoch) && CanonicalScope(scope).Some? {
      var mac := Encode(hmac(CanonicalScope(scope).value)[..MAC_BYTES]);
      EncodeShape(hmac(CanonicalScope(scope).value)[..MAC_BYTES]);
      ParseIffPrinted(PrintCapability(scope.connectionId, scope.epoch, mac), scope.connectionId, scope.epoch, mac);
    }
  }

  lemma JoinSix(a: string, b: string, c: string, d: string, e: string, f: string)
    ensures JoinNul([a, b, c, d, e, f]) == a + "\0" + (b + "\0" + (c + "\0" + (d + "\0" + (e + "\0" + f))))
  {
    assert [e, f][1..] == [f] && JoinNul([e, f]) == e + "\0" + f;
    assert [d, e, f][1..] == [e, f] && JoinNul([d, e, f]) == d + "\0" + JoinNul([e, f]);
    assert [c, d, e, f][1..] == [d, e, f] && JoinNul([c, d, e, f]) == c + "\0" + JoinNul([d, e, f]);
    assert [b, c, d, e, f][1..] == [c, d, e, f] && JoinNul([b, c, d, e, f]) == b + "\0" + JoinNul([c, d, e, f]);
    assert [a, b, c, d, e, f][1..] == [b, c, d, e, f];
  }

  /**
   * The text a capability covers: the domain, then connection, account, channel, account at the
   * channel and epoch, one behind the other with a NUL between; there is none if one is empty or has a NUL.
   */
  lemma ScopeText(scope: Scope)
    ensures CanonicalScope(scope).Some? <==>
            && scope.connectionId != "" && scope.accountId != "" && scope.channel != ""
            && scope.runtimeAccountId != "" && scope.epoch != ""
            && '\0' !in scope.connectionId && '\0' !in scope.accountId && '\0' !in scope.channel
            && '\0' !in scope.runtimeAccountId && '\0' !in scope.epoch
    ensures CanonicalScope(scope).Some? ==>
              CanonicalScope(scope).value ==
              "eden3-channel-cap-v1" + "\0" + (scope.connectionId + "\0" + (scope.accountId + "\0" +
              (scope.channel + "\0" + (scope.runtimeAccountId + "\0" + scope.epoch))))
  {
    var parts := ScopeParts(scope);
    assert AllParts(parts) <==> IsPart(parts[0]) && IsPart(parts[1]) && IsPart(parts[2]) && IsPart(parts[3]) && IsPart(parts[4]) && IsPart(parts[5]);
    JoinSix("eden3-channel-cap-v1", scope.connectionId, scope.accountId, scope.channel, scope.runtimeAccountId, scope.epoch);
  }

  /** Canonical scope text determines the scope. */
  lemma CanonicalScopeInjective(a: Scope, b: Scope)
    requires CanonicalScope(a).Some? && CanonicalScope(a) == CanonicalScope(b)
    ensures a == b
  {
    JoinNulInjective(ScopeParts(a), ScopeParts(b));
    assert ScopeParts(a)[1] == ScopeParts(b)[1] && ScopeParts(a)[2] == ScopeParts(b)[2];
    assert ScopeParts(a)[3] == ScopeParts(b)[3] && ScopeParts(a)[4] == ScopeParts(b)[4];
    assert ScopeParts(a)[5] == ScopeParts(b)[5];
  }

  // ---------------------------------------------------------------------------
  // Verifying
  // ---------------------------------------------------------------------------

  datatype Reason = Granted | GrantedLegacyUnscoped | MalformedId | Forged | EpochRevoked | LegacyUnscopedDenied

  datatype Verdict = Verdict(ok: bool, connectionId: Option<string>, reason: Reason)

  datatype Connection = Connection(connectionId: string, accountId: Option<string>, channel: string,
                                   runtimeAccountId: Option<string>, epoch: string)

  function DecodeChecked(value: string): Option<seq<Byte>> {
    if |value| > 0 && AllDigits(value) then Some(Decode(value)) else None
  }

  function ScopeAt(row: Connection, epoch: string): Option<Scope> {
    if row.accountId.Some? && row.runtimeAccountId.Some? then
      Some(Scope(row.connectionId, row.accountId.value, row.channel, row.runtimeAccountId.value, epoch))
    else None
  }

  function Verify(hmac: Hmac, id: string, row: Connection, allowLegacyUnscoped: bool): Verdict
    requires IsHmac(hmac)
  {
    match Parse(id)
    case Malformed => Verdict(false, None, MalformedId)
    case LegacyId(connectionId) =>
      if allowLegacyUnscoped then Verdict(true, Some(connectionId), GrantedLegacyUnscoped)
      else Verdict(false, Some(connectionId), LegacyUnscopedDenied)
    case CapabilityId(connectionId, epoch, mac) =>
      var presented := DecodeChecked(mac);
      if presented.None? || |presented.value| != MAC_BYTES || Encode(presented.value) != mac || ScopeAt(row, epoch).None? then
        Verdict(false, Some(connectionId), Forged)
      else
        var expected := CapabilityMac(hmac, ScopeAt(row, epoch).value);
        if expected.None? || expected.value != presented.value then Verdict(false, Some(connectionId), Forged)
        else if epoch != row.epoch then Verdict(false, Some(connectionId), EpochRevoked)
        else Verdict(true, Some(connectionId), Granted)
  }

  /** The MAC test accepts exactly the canonical print of the row's own MAC at the claimed epoch. */
  lemma MacAcceptedIff(hmac: Hmac, mac: string, row: Connection, epoch: string)
    requires IsHmac(hmac) && IsMac(mac)
    ensures var presented := DecodeChecked(mac);
            (&& presented.Some? && |presented.value| == MAC_BYTES && Encode(presented.value) == mac
             && ScopeAt(row, epoch).Some? && CapabilityMac(hmac, ScopeAt(row, epoch).value) == presented) <==>
            (&& ScopeAt(row, epoch).Some? && CapabilityMac(hmac, ScopeAt(row, epoch).value).Some?
             && mac == Encode(CapabilityMac(hmac, ScopeAt(row, epoch).value).value))
  {
    if ScopeAt(row, epoch).Some? && CapabilityMac(hmac, ScopeAt(row, epoch).value).Some? {
      DecodeEncode(CapabilityMac(hmac, ScopeAt(row, epoch).value).value);
    }
  }

  /** What verification accepts, for any row: the print, under the id's own connection, of the row's MAC at the id's epoch. */
  lemma AcceptedIff(hmac: Hmac, id: string, row: Connection, allowLegacyUnscoped: bool, connectionId: string, epoch: string)
    requires IsHmac(hmac)
    requires IsUuid(connectionId) && IsEpoch(epoch)
    requires Parse(id).CapabilityId? && Parse(id).connectionId == connectionId && Parse(id).epoch == epoch
    ensures var verdict := Verify(hmac, id, row, allowLegacyUnscoped);
            (verdict.reason == Granted || verdict.reason == EpochRevoked) <==>
            && ScopeAt(row, epoch).Some? && CanonicalScope(ScopeAt(row, epoch).value).Some?
            && id == PrintCapability(connectionId, epoch, Encode(CapabilityMac(hmac, ScopeAt(row, epoch).value).value))
  {
    var mac := Parse(id).mac;
    ParseIffPrinted(id, connectionId, epoch, mac);
    MacAcceptedIff(hmac, mac, row, epoch);
    if ScopeAt(row, epoch).Some? && CanonicalScope(ScopeAt(row, epoch).value).Some? {
      var own := Encode(CapabilityMac(hmac, ScopeAt(row, epoch).value).value);
      EncodeShape(CapabilityMac(hmac, ScopeAt(row, epoch).value).value);
      ParseIffPrinted(id, connectionId, epoch, own);
    }
  }

  predicate LooksUp(id: string, row: Connection) {
    Parse(id).CapabilityId? ==> Parse(id).connectionId == row.connectionId
  }

  /**
   * With the row looked up by the id's connection, an id is granted exactly when it is the one
   * minted for the row's scope.
   */
  lemma GrantedIffMinted(hmac: Hmac, id: string, row: Connection, allowLegacyUnscoped: bool)
    requires IsHmac(hmac) && LooksUp(id, row)
    ensures Verify(hmac, id, row, allowLegacyUnscoped).reason == Granted <==>
            ScopeAt(row, row.epoch).Some? && Mint(hmac, ScopeAt(row, row.epoch).value) == Ok(id)
  {
    VerifiedIffMinted(hmac, id, row, allowLegacyUnscoped, row.epoch);
  }

  /** The same at any epoch: an id minted for the row at another epoch is told apart from a forgery. */
  lemma VerifiedIffMinted(hmac: Hmac, id: string, row: Connection, allowLegacyUnscoped: bool, epoch: string)
    requires IsHmac(hmac) && LooksUp(id, row)
    ensures (&& Verify(hmac, id, row, allowLegacyUnscoped).reason == (if epoch == row.epoch then Granted else EpochRevoked)
             && Parse(id).epoch == epoch) <==>
            ScopeAt(row, epoch).Some? && Mint(hmac, ScopeAt(row, epoch).value) == Ok(id)
  {
    if Parse(id).CapabilityId? {
      ParseIffPrinted(id, Parse(id).connectionId, Parse(id).epoch, Parse(id).mac);
      AcceptedIff(hmac, id, row, allowLegacyUnscoped, row.connectionId, Parse(id).epoch);
    }
    if ScopeAt(row, epoch).Some? {
      var scope := ScopeAt(row, epoch).value;
      MintSucceedsIff(hmac, scope);
      if Mint(hmac, scope).Ok? {
        var mac := Encode(hmac(CanonicalScope(scope).value)[..MAC_BYTES]);
        EncodeShape(hmac(CanonicalScope(scope).value)[..MAC_BYTES]);
        ParseIffPrinted(Mint(hmac, scope).value, scope.connectionId, scope.epoch, mac);
      }
    }
  }

  /** A text is one of neither kind exactly when it prints nothing of either. */
  lemma MalformedIffPrintsNothing(id: string)
    ensures Parse(id) == Malformed <==>
            && (forall connectionId, epoch, mac ::
                  IsUuid(connectionId) && IsEpoch(epoch) && IsMac(mac) ==> id != PrintCapability(connectionId, epoch, mac))
            && (forall connectionId :: IsUuid(connectionId) ==> id != PrintLegacy(connectionId))
  {
    match Parse(id)
    case Malformed =>
      forall connectionId, epoch, mac | IsUuid(connectionId) && IsEpoch(epoch) && IsMac(mac)
        ensures id != PrintCapability(connectionId, epoch, mac)
      {
        ParseIffPrinted(id, connectionId, epoch, mac);
      }
      forall connectionId | IsUuid(connectionId)
        ensures id != PrintLegacy(connectionId)
      {
        ParseLegacyIffPrinted(id, connectionId);
      }
    case LegacyId(connectionId) => ParseLegacyIffPrinted(id, connectionId);
    case CapabilityId(connectionId, epoch, mac) => ParseIffPrinted(id, connectionId, epoch, mac);
  }

  /** An unscoped id of the older form: the bare connection. */
  ghost predicate IsLegacy(id: string) {
    exists connectionId :: IsUuid(connectionId) && id == "channel/" + connectionId
  }

  lemma LegacyIsParsed(id: string)
    ensures IsLegacy(id) <==> Parse(id).LegacyId?
  {
    if IsLegacy(id) {
      var connectionId :| IsUuid(connectionId) && id == "channel/" + connectionId;
      ParseLegacyIffPrinted(id, connectionId);
    }
    if Parse(id).LegacyId? {
      ParseLegacyIffPrinted(id, Parse(id).connectionId);
    }
  }

  /** Scope and epoch of a connection that has both its accounts. */
  ghost predicate IsMintedFor(hmac: Hmac, id: string, row: Connection)
    requires IsHmac(hmac)
  {
    && row.accountId.Some? && row.runtimeAccountId.Some?
    && Mint(hmac, Scope(row.connectionId, row.accountId.value, row.channel, row.runtimeAccountId.value, row.epoch)) == Ok(id)
  }

  /**
   * With the row looked up by the id's connection, an id verifies exactly when it is the one minted
   * for the row's scope at its current epoch, or it is an unscoped id and those are allowed.
   */
  lemma VerifiesIff(hmac: Hmac, id: string, row: Connection, allowLegacyUnscoped: bool)
    requires IsHmac(hmac) && LooksUp(id, row)
    ensures Verify(hmac, id, row, allowLegacyUnscoped).ok <==>
            IsMintedFor(hmac, id, row) || (allowLegacyUnscoped && IsLegacy(id))
  {
    GrantedIffMinted(hmac, id, row, allowLegacyUnscoped);
    LegacyIsParsed(id);
  }

  /** The connection a verdict names is the id's own, and it names none exactly for malformed ids. */
  lemma VerdictNamesConnection(hmac: Hmac, id: string, row: Connection, allowLegacyUnscoped: bool)
    requires IsHmac(hmac)
    ensures var named := Verify(hmac, id, row, allowLegacyUnscoped).connectionId;
            && (named.None? <==> Parse(id) == Malformed)
            && (named.Some? ==> IsUuid(named.value) && "channel/" + named.value <= id)
  {
    match Parse(id)
    case Malformed =>
    case LegacyId(connectionId) => ParseLegacyIffPrinted(id, connectionId);
    case CapabilityId(connectionId, epoch, mac) =>
      ParseIffPrinted(id, connectionId, epoch, mac);
      PrintedCuts(connectionId, epoch, mac);
  }

  /** What each reason means; only the two grants let the caller in. */
  lemma ReasonsAreTrue(hmac: Hmac, id: string, row: Connection, allowLegacyUnscoped: bool)
    requires IsHmac(hmac) && LooksUp(id, row)
    ensures var verdict := Verify(hmac, id, row, allowLegacyUnscoped);
            && (verdict.ok <==> verdict.reason in {Granted, GrantedLegacyUnscoped})
            && (verdict.reason == Granted <==> IsMintedFor(hmac, id, row))
            && (verdict.reason == GrantedLegacyUnscoped <==> IsLegacy(id) && allowLegacyUnscoped)
            && (verdict.reason == LegacyUnscopedDenied <==> IsLegacy(id) && !allowLegacyUnscoped)
            && (verdict.reason == MalformedId <==> Parse(id) == Malformed)
            && (verdict.reason == EpochRevoked <==>
                  exists epoch :: epoch != row.epoch && IsMintedFor(hmac, id, row.(epoch := epoch)))
  {
    GrantedIffMinted(hmac, id, row, allowLegacyUnscoped);
    LegacyIsParsed(id);
    var verdict := Verify(hmac, id, row, allowLegacyUnscoped);
    if verdict.reason == EpochRevoked {
      VerifiedIffMinted(hmac, id, row, allowLegacyUnscoped, Parse(id).epoch);
      assert IsMintedFor(hmac, id, row.(epoch := Parse(id).epoch));
    }
    if exists epoch :: epoch != row.epoch && IsMintedFor(hmac, id, row.(epoch := epoch)) {
      var epoch :| epoch != row.epoch && IsMintedFor(hmac, id, row.(epoch := epoch));
      VerifiedIffMinted(hmac, id, row, allowLegacyUnscoped, epoch);
    }
  }

  /**
   * An id minted for one scope is granted against a row only if that is the row's own scope, or
   * the two different scope texts happen to share their truncated MAC.
   */
  lemma NoCrossScopeReplay(hmac: Hmac, scope: Scope, row: Connection, allowLegacyUnscoped: bool)
    requires IsHmac(hmac) && Mint(hmac, scope).Ok?
    requires Verify(hmac, Mint(hmac, scope).value, row, allowLegacyUnscoped).reason == Granted
    ensures ScopeAt(row, row.epoch).Some?
    ensures var own, theirs := CanonicalScope(scope), CanonicalScope(ScopeAt(row, row.epoch).value);
            && own.Some? && theirs.Some?
            && (ScopeAt(row, row.epoch) == Some(scope) ||
                (own.value != theirs.value && hmac(own.value)[..MAC_BYTES] == hmac(theirs.value)[..MAC_BYTES]))
  {
    MintSucceedsIff(hmac, scope);
    var own := hmac(CanonicalScope(scope).value)[..MAC_BYTES];
    var id := Mint(hmac, scope).value;
    EncodeShape(own);
    ParseIffPrinted(id, scope.connectionId, scope.epoch, Encode(own));
    DecodeEncode(own);
    if CanonicalScope(scope) == CanonicalScope(ScopeAt(row, row.epoch).value) {
      CanonicalScopeInjective(scope, ScopeAt(row, row.epoch).value);
    }
  }

  // ---------------------------------------------------------------------------
  // Epoch ids
  // ---------------------------------------------------------------------------

  function Decimal(n: nat): (s: string)
    ensures |s| >= 1 && forall i :: 0 <= i < |s| ==> '0' <= s[i] <= '9'
  {
    if n < 10 then [('0' as int + n) as char] else Decimal(n / 10) + [('0' as int + n % 10) as char]
  }

  function DecimalValue(s: string): int {
    if s == [] then 0 else 10 * DecimalValue(s[..|s| - 1]) + (s[|s| - 1] as int - '0' as int)
  }

  lemma {:induction false} DecimalRoundTrip(n: nat)
    ensures DecimalValue(Decimal(n)) == n
  {
    if n < 10 {
      assert Decimal(n)[..0] == [];
    } else {
      DecimalRoundTrip(n / 10);
      assert Decimal(n)[..|Decimal(n)| - 1] == Decimal(n / 10);
    }
  }

  function PowerOfTen(k: nat): nat {
    if k == 0 then 1 else 10 * PowerOfTen(k - 1)
  }

  lemma {:induction false} DecimalLength(n: nat, digits: nat)
    requires digits >= 1 && n < PowerOfTen(digits)
    ensures |Decimal(n)| <= digits
  {
    if n >= 10 {
      DecimalLength(n / 10, digits - 1);
    }
  }

  function EpochId(generation: int): Result<string, MintError> {
    if generation < 1 || generation > EPOCH_MAX then Err(InvalidEpoch) else Ok("c" + Decimal(generation))
  }

  /** Every admitted generation has an epoch id of its own that minting accepts, and no other number has one. */
  lemma EpochIdsAreDistinct(generation: int, other: int)
    ensures EpochId(generation).Ok? <==> 1 <= generation <= 999_999
    ensures EpochId(generation).Ok? ==> IsEpoch(EpochId(generation).value)
    ensures EpochId(generation).Ok? && EpochId(generation) == EpochId(other) ==> generation == other
  {
    if EpochId(generation).Ok? {
      assert PowerOfTen(6) == 1_000_000;
      DecimalLength(generation, 6);
      DecimalRoundTrip(generation);
      if EpochId(generation) == EpochId(other) {
        DecimalRoundTrip(other);
        assert Decimal(generation) == EpochId(generation).value[1..] && Decimal(other) == EpochId(other).value[1..];
      }
    }
  }
}
