/** Signing-secret rotation and what it lets a webhook be signed with
    (app/domain/services/signing_secrets.py and hmac_service.py). Fernet and the MAC stay abstract. */
module Signing {
  import opened Wrappers

  type Secret = string
  type Cipher = seq<int>

  /** The Fernet key in use: `dec` is None where decryption raises. */
  datatype Fernet = Fernet(enc: Secret -> Cipher, dec: Cipher -> Option<Secret>)

  /** Decryption undoes encryption. */
  ghost predicate RoundTrips(f: Fernet) {
    forall s: Secret :: f.dec(f.enc(s)) == Some(s)
  }

  datatype SecretStatus = PRIMARY | PREVIOUS | REVOKED

  datatype Row = Row(secret: Cipher, version: int, status: SecretStatus, validUntil: Option<int>)

  /** One partner's secret rows, in insertion order, and the partner's own encrypted column. */
  datatype Secrets = Secrets(rows: seq<Row>, column: Option<Cipher>)

  predicate PreviousIsValid(row: Row, now: int) {
    row.status == PREVIOUS && (row.validUntil.None? || row.validUntil.value > now)
  }

  /** Position of the first primary row at or after `i`, if any. */
  function FindPrimary(rows: seq<Row>, i: nat): Option<nat>
    requires i <= |rows|
    ensures FindPrimary(rows, i).Some? ==>
      i <= FindPrimary(rows, i).value < |rows| && rows[FindPrimary(rows, i).value].status == PRIMARY
    ensures FindPrimary(rows, i).None? ==> forall k :: i <= k < |rows| ==> rows[k].status != PRIMARY
    decreases |rows| - i
  {
    if i == |rows| then None
    else if rows[i].status == PRIMARY then Some(i)
    else FindPrimary(rows, i + 1)
  }

  /** What rotation does to an existing row: the primary becomes previous until the end of the overlap,
      an older previous row is revoked. */
  function Demoted(rows: seq<Row>, p: nat, until: int): seq<Row>
    requires p < |rows|
  {
    seq(|rows|, i requires 0 <= i < |rows| =>
      if i == p then rows[i].(status := PREVIOUS, validUntil := Some(until))
      else if rows[i].status == PREVIOUS then rows[i].(status := REVOKED)
      else rows[i])
  }

  /** `rotate_partner_signing_secret` with the freshly generated `secret`. */
  function Rotate(s: Secrets, f: Fernet, secret: Secret, now: int, overlap: int): Secrets {
    var encrypted := f.enc(secret);
    match FindPrimary(s.rows, 0)
    case None => Secrets(s.rows + [Row(encrypted, 1, PRIMARY, None)], Some(encrypted))
    case Some(p) =>
      Secrets(Demoted(s.rows, p, now + overlap) + [Row(encrypted, s.rows[p].version + 1, PRIMARY, None)],
              Some(encrypted))
  }

  /** The first previous row that is valid and decrypts. */
  function FirstPrevious(rows: seq<Row>, f: Fernet, now: int, i: nat): Option<Secret>
    requires i <= |rows|
    decreases |rows| - i
  {
    if i == |rows| then None
    else if PreviousIsValid(rows[i], now) && f.dec(rows[i].secret).Some? then f.dec(rows[i].secret)
    else FirstPrevious(rows, f, now, i + 1)
  }

  function DecryptColumn(s: Secrets, f: Fernet): Option<Secret> {
    if s.column.None? || s.column.value == [] then None else f.dec(s.column.value)
  }

  /** `load_inbound_signing_secrets`. */
  function LoadInbound(s: Secrets, f: Fernet, now: int): (Option<Secret>, Option<Secret>) {
    match FindPrimary(s.rows, 0)
    case None => (DecryptColumn(s, f), None)
    case Some(p) =>
      if f.dec(s.rows[p].secret).None? then (None, None)
      else (f.dec(s.rows[p].secret), FirstPrevious(s.rows, f, now, 0))
  }

  /** `load_outbound_primary_secret`. */
  function LoadOutbound(s: Secrets, f: Fernet): Option<Secret> {
    match FindPrimary(s.rows, 0)
    case None => DecryptColumn(s, f)
    case Some(p) => f.dec(s.rows[p].secret)
  }

  /** The partner's rows as the session updates them in place. */
  class SigningSecretStore {
    var rows: seq<Row>
    var column: Option<Cipher>

    function Snapshot(): Secrets reads this { Secrets(rows, column) }

    constructor (s: Secrets)
      ensures Snapshot() == s
    {
      rows, column := s.rows, s.column;
    }

    method RotatePartnerSigningSecret(f: Fernet, secret: Secret, now: int, overlap: int)
      modifies this
      ensures Snapshot() == Rotate(old(Snapshot()), f, secret, now, overlap)
    {
      var encrypted := f.enc(secret);
      var current := FindPrimary(rows, 0);
      var nextVersion := 1;
      if current.Some? {
        var p := current.value;
        nextVersion := rows[p].version + 1;
        ghost var before := rows;
        rows := rows[p := rows[p].(status := PREVIOUS, validUntil := Some(now + overlap))];
        for i := 0 to |rows|
          invariant |rows| == |before|
          invariant forall k :: 0 <= k < i ==> rows[k] == Demoted(before, p, now + overlap)[k]
          invariant forall k :: i <= k < |rows| && k != p ==> rows[k] == before[k]
          invariant rows[p] == before[p].(status := PREVIOUS, validUntil := Some(now + overlap))
        {
          if rows[i].status == PREVIOUS && i != p {
            rows := rows[i := rows[i].(status := REVOKED)];
          }
        }
        assert rows == Demoted(before, p, now + overlap);
      }
      rows := rows + [Row(encrypted, nextVersion, PRIMARY, None)];
      column := Some(encrypted);
    }

    method LoadInboundSigningSecrets(f: Fernet, now: int) returns (primary: Option<Secret>, previous: Option<Secret>)
      ensures (primary, previous) == LoadInbound(Snapshot(), f, now)
    {
      var found := FindPrimary(rows, 0);
      if found.None? {
        if column.None? || column.value == [] { return None, None; }
        return f.dec(column.value), None;
      }
      primary := f.dec(rows[found.value].secret);
      if primary.None? { return None, None; }
      previous := None;
      for i := 0 to |rows|
        invariant FirstPrevious(rows, f, now, 0) == FirstPrevious(rows, f, now, i)
      {
        if PreviousIsValid(rows[i], now) {
          previous := f.dec(rows[i].secret);
          if previous.Some? { return; }
        }
      }
      previous := None;
    }
  }

  /** What a rotation does to any rows: the primary, if there is one, becomes previous until the end of the overlap and
      every other previous row is revoked; without a primary no row changes. The new secret is the primary, one version
      up or the first, without end, and in the column. */
  lemma RotationChanges(s: Secrets, f: Fernet, secret: Secret, now: int, overlap: int, k: nat)
    requires k < |s.rows|
    ensures var s', p := Rotate(s, f, secret, now, overlap), FindPrimary(s.rows, 0); var row := s.rows[k];
      && |s'.rows| == |s.rows| + 1 && s'.column == Some(f.enc(secret))
      && s'.rows[|s.rows|] == Row(f.enc(secret), if p.None? then 1 else 1 + s.rows[p.value].version, PRIMARY, None)
      && s'.rows[k].secret == row.secret && s'.rows[k].version == row.version
      && (p == Some(k) ==> s'.rows[k].status == PREVIOUS && s'.rows[k].validUntil == Some(now + overlap))
      && (p != Some(k) ==> s'.rows[k].validUntil == row.validUntil)
      && (p != Some(k) && p.Some? && row.status == PREVIOUS ==> s'.rows[k].status == REVOKED)
      && (p != Some(k) && (p.None? || row.status != PREVIOUS) ==> s'.rows[k].status == row.status)
  {
  }

  // ---------------------------------------------------------------- the closed form

  datatype Rotation = Rotation(secret: Secret, at: int)

  /** The store after the first `k` rotations of `trace`. */
  function After(start: Secrets, f: Fernet, trace: seq<Rotation>, overlap: int, k: nat): Secrets
    requires k <= |trace|
  {
    if k == 0 then start
    else Rotate(After(start, f, trace, overlap, k - 1), f, trace[k - 1].secret, trace[k - 1].at, overlap)
  }

  /** A partner as it is created: one primary row, version 1, and the same value in the column. */
  function Created(f: Fernet, secret: Secret): Secrets {
    Secrets([Row(f.enc(secret), 1, PRIMARY, None)], Some(f.enc(secret)))
  }

  /** Secret number `k`: the created one for 0, the one made by the k-th rotation otherwise. */
  function SecretAt(first: Secret, trace: seq<Rotation>, k: nat): Secret
    requires k <= |trace|
  {
    if k == 0 then first else trace[k - 1].secret
  }

  /** The row of secret `j` after `k` rotations: the newest is primary, the one before is previous until
      `overlap` after the last rotation, all older ones are revoked. */
  ghost predicate RowIs(row: Row, f: Fernet, first: Secret, trace: seq<Rotation>, overlap: int, k: nat, j: nat)
    requires j <= k <= |trace|
  {
    && row.secret == f.enc(SecretAt(first, trace, j)) && row.version == j + 1
    && row.status == (if j == k then PRIMARY else if j + 1 == k then PREVIOUS else REVOKED)
    && (j + 1 == k ==> row.validUntil == Some(trace[k - 1].at + overlap))
  }

  /** After k rotations there are exactly the versions 1..k+1, one primary, at most one previous. */
  lemma {:induction false} RowsClosedForm(f: Fernet, first: Secret, trace: seq<Rotation>, overlap: int, k: nat)
    requires k <= |trace|
    ensures var s := After(Created(f, first), f, trace, overlap, k);
      && |s.rows| == k + 1
      && (forall j :: 0 <= j <= k ==> RowIs(s.rows[j], f, first, trace, overlap, k, j))
      && FindPrimary(s.rows, 0) == Some(k)
      && s.column == Some(f.enc(SecretAt(first, trace, k)))
  {
    var s := After(Created(f, first), f, trace, overlap, k);
    if k > 0 {
      RowsClosedForm(f, first, trace, overlap, k - 1);
      var before := After(Created(f, first), f, trace, overlap, k - 1);
      assert forall j :: 0 <= j <= k - 1 ==> RowIs(before.rows[j], f, first, trace, overlap, k - 1, j);
      OnlyPrimary(s.rows, k, 0);
    } else {
      OnlyPrimary(s.rows, 0, 0);
    }
  }

  lemma {:induction false} OnlyPrimary(rows: seq<Row>, p: nat, i: nat)
    requires i <= p < |rows| && rows[p].status == PRIMARY
    requires forall k :: i <= k < p ==> rows[k].status != PRIMARY
    ensures FindPrimary(rows, i) == Some(p)
    decreases p - i
  {
    if i < p {
      OnlyPrimary(rows, p, i + 1);
    }
  }

  lemma {:induction false} OnlyPrevious(rows: seq<Row>, f: Fernet, now: int, q: nat, i: nat)
    requires i <= q < |rows| && f.dec(rows[q].secret).Some?
    requires forall k :: i <= k < |rows| && k != q ==> !PreviousIsValid(rows[k], now)
    ensures FirstPrevious(rows, f, now, i) == if PreviousIsValid(rows[q], now) then f.dec(rows[q].secret) else None
    decreases |rows| - i
  {
    if i < q {
      OnlyPrevious(rows, f, now, q, i + 1);
    } else {
      NoPrevious(rows, f, now, i + 1);
    }
  }

  lemma {:induction false} NoPrevious(rows: seq<Row>, f: Fernet, now: int, i: nat)
    requires i <= |rows| && forall k :: i <= k < |rows| ==> !PreviousIsValid(rows[k], now)
    ensures FirstPrevious(rows, f, now, i) == None
    decreases |rows| - i
  {
    if i < |rows| {
      NoPrevious(rows, f, now, i + 1);
    }
  }

  /** The secrets offered to inbound verification after k rotations, at any time t: secret k, and with
      it secret k - 1 exactly while t < r_k + overlap. Outbound signing uses secret k. */
  lemma OfferedSecrets(f: Fernet, first: Secret, trace: seq<Rotation>, overlap: int, t: int)
    requires RoundTrips(f)
    ensures var k := |trace|; var s := After(Created(f, first), f, trace, overlap, k);
      && LoadOutbound(s, f) == Some(SecretAt(first, trace, k))
      && LoadInbound(s, f, t).0 == Some(SecretAt(first, trace, k))
      && LoadInbound(s, f, t).1 ==
           (if k > 0 && t < trace[k - 1].at + overlap then Some(SecretAt(first, trace, k - 1)) else None)
  {
    var k := |trace|;
    var s := After(Created(f, first), f, trace, overlap, k);
    RowsClosedForm(f, first, trace, overlap, k);
    assert RowIs(s.rows[k], f, first, trace, overlap, k, k);
    if k > 0 {
      assert RowIs(s.rows[k - 1], f, first, trace, overlap, k, k - 1);
      forall j | 0 <= j < |s.rows| && j != k - 1
        ensures !PreviousIsValid(s.rows[j], t)
      {
        assert RowIs(s.rows[j], f, first, trace, overlap, k, j);
      }
      OnlyPrevious(s.rows, f, t, k - 1, 0);
    } else {
      NoPrevious(s.rows, f, t, 0);
    }
  }

  /** A partner from before the secret table has only the column: its first rotation starts the
      versions at 1 and drops the old secret at once, with no overlap. */
  lemma LegacyPartnerHasNoOverlap(f: Fernet, legacy: Secret, next: Secret, r: int, overlap: int, t: int)
    requires RoundTrips(f) && f.enc(legacy) != []
    ensures var s0 := Secrets([], Some(f.enc(legacy))); var s1 := Rotate(s0, f, next, r, overlap);
      && LoadInbound(s0, f, t) == (Some(legacy), None)
      && s1 == Created(f, next)
      && LoadInbound(s1, f, t) == (Some(next), None)
  {
    OfferedSecrets(f, next, [], overlap, t);
  }

  // ---------------------------------------------------------------- loading, whatever the rows and the key

  /** A row that may still be accepted beside the primary. */
  predicate InOverlap(row: Row, now: int) {
    row.status == PREVIOUS && (row.validUntil == None || now < row.validUntil.value)
  }

  /** The first previous secret: that of the first row in its overlap that decrypts; none if there is no such row. */
  lemma {:induction false} FirstPreviousIs(rows: seq<Row>, f: Fernet, now: int, i: nat)
    requires i <= |rows|
    ensures var r := FirstPrevious(rows, f, now, i);
      if r.None? then forall k :: i <= k < |rows| && InOverlap(rows[k], now) ==> f.dec(rows[k].secret) == None
      else exists k :: i <= k < |rows| && InOverlap(rows[k], now) && f.dec(rows[k].secret) == r
             && forall l :: i <= l < k && InOverlap(rows[l], now) ==> f.dec(rows[l].secret) == None
    decreases |rows| - i
  {
    if i < |rows| {
      FirstPreviousIs(rows, f, now, i + 1);
    }
  }

  predicate IsFirstPrimary(rows: seq<Row>, p: int) {
    0 <= p < |rows| && rows[p].status == PRIMARY && forall k :: 0 <= k < p ==> rows[k].status != PRIMARY
  }

  /** For any rows and any key, also one that does not decrypt them: the primary row decides alone; only a partner
      without one falls back to a column that is present and not empty, and has no previous secret; and a primary that
      does not decrypt leaves nothing to verify or sign with. */
  lemma LoadCases(s: Secrets, f: Fernet, now: int)
    ensures var (primary, previous) := LoadInbound(s, f, now);
      && primary == LoadOutbound(s, f)
      && (forall p :: IsFirstPrimary(s.rows, p) ==>
            && primary == f.dec(s.rows[p].secret)
            && previous == if primary.None? then None else FirstPrevious(s.rows, f, now, 0))
      && ((forall k :: 0 <= k < |s.rows| ==> s.rows[k].status != PRIMARY) ==>
            && previous == None
            && primary == (match s.column case None => None case Some(c) => if |c| == 0 then None else f.dec(c)))
  {
    forall p | IsFirstPrimary(s.rows, p)
      ensures FindPrimary(s.rows, 0) == Some(p)
    {
      OnlyPrimary(s.rows, p, 0);
    }
  }

  // ---------------------------------------------------------------- what is accepted

  type Mac = (Secret, string) -> string

  const PREFIX := "sha256="

  /** `signed_payload`. */
  function SignedPayload(timestamp: string, body: string): string {
    timestamp + "." + body
  }

  /** `sign`. */
  function Sign(mac: Mac, secret: Secret, timestamp: string, body: string): string {
    PREFIX + mac(secret, SignedPayload(timestamp, body))
  }

  /** `_header_hex`. */
  function HeaderHex(header: string): Option<string> {
    if PREFIX <= header then Some(header[|PREFIX|..]) else None
  }

  function Abs(x: int): int { if x < 0 then -x else x }

  /** `verify`; `ts` is the number that `timestamp` spells. */
  function Verify(mac: Mac, secret: Secret, timestamp: string, ts: int, body: string, header: string,
                  now: int, tolerance: int, previous: Option<Secret>): bool {
    if Abs(now - ts) > tolerance then false
    else
      match HeaderHex(header)
      case None => false
      case Some(hex) =>
        var payload := SignedPayload(timestamp, body);
        || mac(secret, payload) == hex
        || (previous.Some? && mac(previous.value, payload) == hex)
  }

  /** `_verify_hmac`: verification with the secrets loaded at `now`. */
  function VerifyInbound(s: Secrets, f: Fernet, mac: Mac, timestamp: string, ts: int, body: string, header: string,
                         now: int, tolerance: int): bool {
    var (secret, previous) := LoadInbound(s, f, now);
    secret.Some? && Verify(mac, secret.value, timestamp, ts, body, header, now, tolerance, previous)
  }

  /** After k rotations, a header is accepted at time `now` if and only if the timestamp is within the tolerance and
      the header is "sha256=" and the MAC of timestamp, dot and body by secret k, or by secret k - 1 while the overlap
      of the last rotation lasts. */
  lemma AcceptedSignatures(f: Fernet, mac: Mac, first: Secret, trace: seq<Rotation>, overlap: int,
                           timestamp: string, ts: int, body: string, header: string, now: int, tolerance: int)
    requires RoundTrips(f)
    ensures var k := |trace|;
      VerifyInbound(After(Created(f, first), f, trace, overlap, k), f, mac, timestamp, ts, body, header, now, tolerance)
      <==>
      && -tolerance <= now - ts <= tolerance
      && (|| header == "sha256=" + mac(SecretAt(first, trace, k), timestamp + "." + body)
          || (k > 0 && now < trace[k - 1].at + overlap
              && header == "sha256=" + mac(SecretAt(first, trace, k - 1), timestamp + "." + body)))
  {
    OfferedSecrets(f, first, trace, overlap, now);
    HeaderIs(header, mac(SecretAt(first, trace, |trace|), SignedPayload(timestamp, body)));
    if |trace| > 0 {
      HeaderIs(header, mac(SecretAt(first, trace, |trace| - 1), SignedPayload(timestamp, body)));
    }
  }

  predicate NoDot(s: string) {
    forall i :: 0 <= i < |s| ==> s[i] != '.'
  }

  /** Timestamp and body can be read back from what is signed: the timestamp ends at the first dot. */
  lemma PayloadBinds(ts: string, body: string, ts': string, body': string)
    requires NoDot(ts) && NoDot(ts') && SignedPayload(ts, body) == SignedPayload(ts', body')
    ensures ts == ts' && body == body'
  {
    var s, s' := ts + "." + body, ts' + "." + body';
    assert s[|ts|] == '.' && s'[|ts'|] == '.';
    assert forall i :: 0 <= i < |ts| ==> s[i] == ts[i];
    assert forall i :: 0 <= i < |ts'| ==> s'[i] == ts'[i];
    assert |ts| == |ts'|;
    assert s[..|ts|] == ts && s'[..|ts'|] == ts';
    assert s[|ts| + 1..] == body && s'[|ts'| + 1..] == body';
  }

  /** A signature cannot be used for anything else: if a header signed for one timestamp and body is accepted, with the
      same secret, for another, they are the same. Assumed of the MAC is only that it does not collide. */
  lemma SignatureBinds(mac: Mac, secret: Secret, ts: string, body: string, ts': string, body': string,
                       spelled: int, now: int, tolerance: int)
    requires forall x: string, y: string :: mac(secret, x) == mac(secret, y) ==> x == y
    requires NoDot(ts) && NoDot(ts')
    requires Verify(mac, secret, ts, spelled, body, Sign(mac, secret, ts', body'), now, tolerance, None)
    ensures ts == ts' && body == body'
  {
    HeaderIs(Sign(mac, secret, ts', body'), mac(secret, SignedPayload(ts', body')));
    PayloadBinds(ts, body, ts', body');
  }

  /** What is signed now is accepted now. */
  lemma SignedIsAccepted(mac: Mac, secret: Secret, ts: string, body: string, spelled: int, now: int, tolerance: int,
                         previous: Option<Secret>)
    requires -tolerance <= now - spelled <= tolerance
    ensures Verify(mac, secret, ts, spelled, body, Sign(mac, secret, ts, body), now, tolerance, previous)
  {
    HeaderIs(Sign(mac, secret, ts, body), mac(secret, SignedPayload(ts, body)));
  }

  lemma HeaderIs(header: string, hex: string)
    ensures header == PREFIX + hex <==> HeaderHex(header) == Some(hex)
  {
    if HeaderHex(header).Some? {
      assert header == PREFIX + header[|PREFIX|..];
    }
    if header == PREFIX + hex {
      assert header[|PREFIX|..] == hex;
    }
  }
}
