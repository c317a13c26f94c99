/**
 * The movement payloads a player's network-transform entity receives, and the
 * sequence-number gate that decides whether a payload moves the player.
 * Modelled on PlayerClass.parse_location and PlayerClass.snap_to.
 */
module Movement {
  import opened Base

  /** The little-endian 16-bit fields of a movement payload. */
  datatype MovePayload = MovePayload(seqNum: int, ix: int, iy: int, xSpeed: int, ySpeed: int)

  predicate ValidPayload(p: MovePayload) {
    IsU16(p.seqNum) && IsU16(p.ix) && IsU16(p.iy) && IsU16(p.xSpeed) && IsU16(p.ySpeed)
  }

  /**
   * A 10-byte payload is an alive movement (sequence, x, y, x-speed, y-speed);
   * a 6-byte payload is a ghost movement (sequence, x, y) whose speeds are zero.
   * Every other length is bad data.
   */
  function DecodeMove(data: seq<byte>): (r: Option<MovePayload>)
    ensures r.Some? <==> |data| == 6 || |data| == 10
    ensures r.Some? ==> ValidPayload(r.value)
    ensures |data| == 6 ==> r.Some? && r.value.xSpeed == 0 && r.value.ySpeed == 0
  {
    if |data| == 10 then
      Some(MovePayload(LeU16(data[0], data[1]), LeU16(data[2], data[3]), LeU16(data[4], data[5]),
                       LeU16(data[6], data[7]), LeU16(data[8], data[9])))
    else if |data| == 6 then
      Some(MovePayload(LeU16(data[0], data[1]), LeU16(data[2], data[3]), LeU16(data[4], data[5]), 0, 0))
    else
      None
  }

  /** The 10-byte alive layout of a payload. */
  function EncodeAlive(p: MovePayload): (data: seq<byte>)
    requires ValidPayload(p)
    ensures |data| == 10
  {
    U16Bytes(p.seqNum) + U16Bytes(p.ix) + U16Bytes(p.iy) + U16Bytes(p.xSpeed) + U16Bytes(p.ySpeed)
  }

  /** The 6-byte ghost layout of a payload (its speeds are not sent). */
  function EncodeGhost(p: MovePayload): (data: seq<byte>)
    requires ValidPayload(p)
    ensures |data| == 6
  {
    U16Bytes(p.seqNum) + U16Bytes(p.ix) + U16Bytes(p.iy)
  }

  lemma AliveRoundTrip(p: MovePayload)
    requires ValidPayload(p)
    ensures DecodeMove(EncodeAlive(p)) == Some(p)
  {
    var d := EncodeAlive(p);
    assert d[0..2] == U16Bytes(p.seqNum) && d[2..4] == U16Bytes(p.ix) && d[4..6] == U16Bytes(p.iy);
    assert d[6..8] == U16Bytes(p.xSpeed) && d[8..10] == U16Bytes(p.ySpeed);
  }

  lemma GhostRoundTrip(p: MovePayload)
    requires ValidPayload(p)
    ensures DecodeMove(EncodeGhost(p)) == Some(p.(xSpeed := 0, ySpeed := 0))
  {
    var d := EncodeGhost(p);
    assert d[0..2] == U16Bytes(p.seqNum) && d[2..4] == U16Bytes(p.ix) && d[4..6] == U16Bytes(p.iy);
  }

  /** Decoding an alive payload loses nothing: re-encoding gives the same bytes back. */
  lemma AliveDecodeIsLossless(data: seq<byte>)
    requires |data| == 10
    ensures EncodeAlive(DecodeMove(data).value) == data
  {
    var e := EncodeAlive(DecodeMove(data).value);
    forall i | 0 <= i < 10 ensures e[i] == data[i] {
      var k := i / 2 * 2;
      assert LeU16(data[k], data[k + 1]) % 256 == data[k];
    }
  }

  /** Recentring on the map origin and scaling to the world's -40 .. 40 units, in exact arithmetic. */
  function Lerp(i: int): real {
    (i - 32767) as real / 32767.0 * 40.0
  }

  lemma LerpLandmarks()
    ensures Lerp(32767) == 0.0
    ensures Lerp(0) == -40.0
    ensures 40.0 < Lerp(65535) < 40.002
  {
  }

  /** Every 16-bit coordinate lands between -40 and a hair above 40. */
  lemma LerpRange(i: int)
    requires IsU16(i)
    ensures -40.0 <= Lerp(i) <= Lerp(65535)
  {
  }

  /** The part of a player that movement changes. */
  datatype Motion = Motion(x: real, y: real, lastMoveSeq: int)

  /**
   * One parse_location call: the new motion and the returned pair, where None
   * stands for the `(False, False)` the source returns for bad data and for stale data.
   */
  function MoveStep(m: Motion, data: seq<byte>): (r: (Motion, Option<(real, real)>))
    ensures r.1.None? ==> r.0 == m
    ensures r.1.Some? <==> r.0.lastMoveSeq > m.lastMoveSeq
    ensures r.1.Some? ==> r.1.value == (r.0.x, r.0.y)
    ensures r.0.lastMoveSeq >= m.lastMoveSeq
  {
    match DecodeMove(data)
    case None => (m, None)
    case Some(p) =>
      if p.seqNum > m.lastMoveSeq then
        var x, y := Lerp(p.ix), Lerp(p.iy);
        (Motion(x, y, p.seqNum), Some((x, y)))
      else
        (m, None)
  }

  lemma MoveBadLength(m: Motion, data: seq<byte>)
    requires |data| != 6 && |data| != 10
    ensures MoveStep(m, data) == (m, None)
  {
  }

  /** A well-formed payload moves the player exactly when its sequence number is newer. */
  lemma MoveGate(m: Motion, data: seq<byte>)
    requires |data| == 6 || |data| == 10
    ensures var p := DecodeMove(data).value;
      && (p.seqNum > m.lastMoveSeq ==> MoveStep(m, data).0 == Motion(Lerp(p.ix), Lerp(p.iy), p.seqNum))
      && (p.seqNum <= m.lastMoveSeq ==> MoveStep(m, data) == (m, None))
  {
  }

  /** Re-applying a payload changes nothing: the gate rejects the sequence number it just stored. */
  lemma MoveIdempotent(m: Motion, data: seq<byte>)
    ensures MoveStep(MoveStep(m, data).0, data) == (MoveStep(m, data).0, None)
  {
  }

  /** snap_to: the same guard, the raw recentred offsets, and no change to the stored sequence number. */
  function SnapStep(m: Motion, ix: int, iy: int, seqNum: int): (r: Motion)
    ensures r.lastMoveSeq == m.lastMoveSeq
    ensures seqNum <= m.lastMoveSeq ==> r == m
  {
    if seqNum > m.lastMoveSeq then Motion((ix - 32767) as real, (iy - 32767) as real, m.lastMoveSeq) else m
  }

  /**
   * Because a snap does not advance the stored sequence number, a movement
   * payload carrying the snap's own sequence number still overrides the snap.
   */
  lemma SnapLeavesGateOpen(m: Motion, ix: int, iy: int, data: seq<byte>)
    requires |data| == 6 || |data| == 10
    requires DecodeMove(data).value.seqNum > m.lastMoveSeq
    ensures MoveStep(SnapStep(m, ix, iy, DecodeMove(data).value.seqNum), data).0 == MoveStep(m, data).0
  {
  }
}
