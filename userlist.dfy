/**
 * The username list carried in the first child of a GameData spawn:
 * one count byte N, then N records of player id, name length L, L name bytes
 * and six trailing bytes (a little-endian 32-bit and a 16-bit field whose
 * meaning is unknown and which the engine discards).
 */
module UserList {
  import opened Base

  datatype UserRecord = UserRecord(playerId: byte, name: seq<byte>, trailer: seq<byte>)

  predicate WellFormed(r: UserRecord) {
    |r.name| < 256 && |r.trailer| == 6
  }

  function EncodeRecord(r: UserRecord): (bs: seq<byte>)
    requires WellFormed(r)
    ensures |bs| == 8 + |r.name|
  {
    [r.playerId, |r.name|] + r.name + r.trailer
  }

  /**
   * One record at the front of `buf` and the bytes after it. The source reads
   * a byte, a length byte, slices the name (a short slice is not an error) and
   * then unpacks six bytes, which fails when fewer remain.
   */
  function DecodeRecord(buf: seq<byte>): (r: Option<(UserRecord, seq<byte>)>)
    ensures r.Some? <==> |buf| >= 2 && |buf| >= 8 + buf[1] as int
    ensures r.Some? ==> WellFormed(r.value.0) && buf == EncodeRecord(r.value.0) + r.value.1
  {
    if |buf| < 2 || |buf| < 8 + buf[1] as int then None
    else
      var len := buf[1];
      var rec := UserRecord(buf[0], buf[2..2 + len], buf[2 + len..8 + len]);
      assert buf == EncodeRecord(rec) + buf[8 + len..];
      Some((rec, buf[8 + len..]))
  }

  /** Up to `count` records; the flag says whether all of them were read. */
  function DecodeRecords(buf: seq<byte>, count: nat): (r: (seq<UserRecord>, bool))
    ensures |r.0| <= count
    ensures r.1 <==> |r.0| == count
    ensures forall i :: 0 <= i < |r.0| ==> WellFormed(r.0[i])
    decreases count
  {
    if count == 0 then ([], true)
    else
      match DecodeRecord(buf)
      case None => ([], false)
      case Some((rec, rest)) =>
        var (recs, complete) := DecodeRecords(rest, count - 1);
        ([rec] + recs, complete)
  }

  /** Reading one more record: a record that can be read is prepended to the rest. */
  lemma DecodeRecordsStep(buf: seq<byte>, count: nat, rec: UserRecord, rest: seq<byte>)
    requires count > 0 && DecodeRecord(buf) == Some((rec, rest))
    ensures DecodeRecords(buf, count) == ([rec] + DecodeRecords(rest, count - 1).0, DecodeRecords(rest, count - 1).1)
  {
  }

  /** The bookkeeping of the username loop: moving one record from the unread part to the read part. */
  lemma ReadOneMore(all: (seq<UserRecord>, bool), recs: seq<UserRecord>, buf: seq<byte>, count: nat,
                    rec: UserRecord, rest: seq<byte>)
    requires count > 0 && DecodeRecord(buf) == Some((rec, rest))
    requires all.0 == recs + DecodeRecords(buf, count).0 && all.1 == DecodeRecords(buf, count).1
    ensures all.0 == (recs + [rec]) + DecodeRecords(rest, count - 1).0 && all.1 == DecodeRecords(rest, count - 1).1
  {
    DecodeRecordsStep(buf, count, rec, rest);
    assert (recs + [rec]) + DecodeRecords(rest, count - 1).0 == recs + ([rec] + DecodeRecords(rest, count - 1).0);
  }

  /** A record that cannot be read ends the list, incomplete. */
  lemma DecodeRecordsStop(buf: seq<byte>, count: nat)
    requires count > 0 && DecodeRecord(buf).None?
    ensures DecodeRecords(buf, count) == ([], false)
  {
  }

  /** The records of a whole username-list payload (an empty payload fails on its count byte). */
  function DecodeUserList(data: seq<byte>): (r: (seq<UserRecord>, bool))
    ensures r.1 ==> |data| > 0 && |r.0| == data[0]
  {
    if |data| == 0 then ([], false) else DecodeRecords(data[1..], data[0])
  }

  /**
   * One pass of the username loop's reads: the player id byte, the length
   * byte, the name slice (short when the buffer runs out) and the six-byte
   * unpack, which fails when fewer bytes remain.
   */
  method NextRecord(buffer: seq<byte>) returns (r: Option<(UserRecord, seq<byte>)>)
    ensures r == DecodeRecord(buffer)
  {
    if |buffer| == 0 {
      return None;   // the player id byte is missing
    }
    var pid := buffer[0];
    var rest := buffer[1..];
    if |rest| == 0 {
      return None;   // the length byte is missing
    }
    var slen := rest[0];
    rest := rest[1..];
    assert rest == buffer[2..];
    var take := if slen as int <= |rest| then slen as int else |rest|;
    var userName := rest[..take];
    rest := rest[take..];
    if |rest| < 6 {
      return None;   // struct.unpack("<LH") needs six bytes
    }
    var trailer := rest[..6];
    rest := rest[6..];
    assert userName == buffer[2..2 + slen] && trailer == buffer[2 + slen..8 + slen] && rest == buffer[8 + slen..];
    return Some((UserRecord(pid, userName, trailer), rest));
  }

  /**
   * The username loop's reads over a whole payload: the count byte, then one
   * record per iteration until the count is reached or a read fails.
   */
  method ReadUserList(data: seq<byte>) returns (recs: seq<UserRecord>, complete: bool)
    ensures (recs, complete) == DecodeUserList(data)
  {
    if |data| == 0 {
      return [], false;   // the count byte is missing
    }
    var count := data[0];
    var buffer := data[1..];
    ghost var all := DecodeRecords(buffer, count);
    recs := [];
    var i := 0;
    while i < count
      invariant 0 <= i <= count
      invariant all.0 == recs + DecodeRecords(buffer, count - i).0
      invariant all.1 == DecodeRecords(buffer, count - i).1
    {
      var next := NextRecord(buffer);
      if next.None? {
        DecodeRecordsStop(buffer, count - i);
        assert recs + [] == recs;
        return recs, false;
      }
      var rec, rest := next.value.0, next.value.1;
      ReadOneMore(all, recs, buffer, count - i, rec, rest);
      recs := recs + [rec];
      buffer := rest;
      i := i + 1;
    }
    assert recs + [] == recs;
    complete := true;
  }

  function EncodeRecords(rs: seq<UserRecord>): seq<byte>
    requires forall i :: 0 <= i < |rs| ==> WellFormed(rs[i])
  {
    if rs == [] then [] else EncodeRecord(rs[0]) + EncodeRecords(rs[1..])
  }

  function EncodeUserList(rs: seq<UserRecord>): seq<byte>
    requires |rs| < 256
    requires forall i :: 0 <= i < |rs| ==> WellFormed(rs[i])
  {
    [|rs|] + EncodeRecords(rs)
  }

  lemma {:induction false} RecordsRoundTrip(rs: seq<UserRecord>, tail: seq<byte>)
    requires forall i :: 0 <= i < |rs| ==> WellFormed(rs[i])
    ensures DecodeRecords(EncodeRecords(rs) + tail, |rs|) == (rs, true)
  {
    if rs != [] {
      var r := rs[0];
      var rest := EncodeRecords(rs[1..]) + tail;
      assert EncodeRecords(rs) + tail == EncodeRecord(r) + rest;
      var buf := EncodeRecord(r) + rest;
      assert buf[1] == |r.name|;
      assert buf[0] == r.playerId && buf[2..2 + |r.name|] == r.name;
      assert buf[2 + |r.name|..8 + |r.name|] == r.trailer;
      assert buf[8 + |r.name|..] == rest;
      RecordsRoundTrip(rs[1..], tail);
      assert [r] + rs[1..] == rs;
    }
  }

  /** Every well-formed list of fewer than 256 records survives encoding and decoding. */
  lemma UserListRoundTrip(rs: seq<UserRecord>)
    requires |rs| < 256
    requires forall i :: 0 <= i < |rs| ==> WellFormed(rs[i])
    ensures DecodeUserList(EncodeUserList(rs)) == (rs, true)
  {
    var data := EncodeUserList(rs);
    assert data[1..] == EncodeRecords(rs) + [];
    RecordsRoundTrip(rs, []);
  }

  /** The username lookup after the records are stored one after the other. */
  function LookupAfter(m: map<int, seq<byte>>, rs: seq<UserRecord>): map<int, seq<byte>>
  {
    if rs == [] then m
    else LookupAfter(m, rs[..|rs| - 1])[rs[|rs| - 1].playerId := rs[|rs| - 1].name]
  }

  /** The name a player with id `pid` ends with: the last record for that id, else `n`. */
  function NameAfter(n: Option<seq<byte>>, pid: int, rs: seq<UserRecord>): Option<seq<byte>>
  {
    if rs == [] then n
    else if rs[|rs| - 1].playerId == pid then Some(rs[|rs| - 1].name)
    else NameAfter(n, pid, rs[..|rs| - 1])
  }

  /** Storing one more record adds or replaces exactly that record's id. */
  lemma LookupAfterStep(m: map<int, seq<byte>>, rs: seq<UserRecord>, r: UserRecord)
    ensures LookupAfter(m, rs + [r]) == LookupAfter(m, rs)[r.playerId := r.name]
  {
    assert (rs + [r])[..|rs|] == rs;
  }

  /** One more record renames a player exactly when it carries the player's id. */
  lemma NameAfterStep(n: Option<seq<byte>>, pid: int, rs: seq<UserRecord>, r: UserRecord)
    ensures NameAfter(n, pid, rs + [r]) == if r.playerId == pid then Some(r.name) else NameAfter(n, pid, rs)
  {
    assert (rs + [r])[..|rs|] == rs;
  }

  /** The ids the lookup gains are exactly the ids of the records. */
  lemma {:induction false} LookupAfterKeys(m: map<int, seq<byte>>, rs: seq<UserRecord>)
    ensures LookupAfter(m, rs).Keys == m.Keys + set i | 0 <= i < |rs| :: rs[i].playerId
  {
    if rs != [] {
      var init := rs[..|rs| - 1];
      LookupAfterKeys(m, init);
      assert (set i | 0 <= i < |rs| :: rs[i].playerId)
          == (set i | 0 <= i < |init| :: init[i].playerId) + {rs[|rs| - 1].playerId} by {
        forall i | 0 <= i < |init| ensures init[i] == rs[i] { }
      }
    }
  }

  /** Later duplicates win: a record's name stays in the lookup unless a later record has its id. */
  lemma {:induction false} LaterDuplicatesWin(m: map<int, seq<byte>>, before: seq<UserRecord>, r: UserRecord, after: seq<UserRecord>)
    requires forall i :: 0 <= i < |after| ==> after[i].playerId != r.playerId
    ensures var l := LookupAfter(m, before + [r] + after); r.playerId in l && l[r.playerId] == r.name
  {
    var rs := before + [r] + after;
    if after == [] {
      assert rs[..|rs| - 1] == before;
    } else {
      var init := after[..|after| - 1];
      assert rs[..|rs| - 1] == before + [r] + init;
      LaterDuplicatesWin(m, before, r, init);
    }
  }

  /**
   * A player whose id appears in the records ends up carrying exactly the name
   * the lookup holds for that id.
   */
  lemma {:induction false} NameAgreesWithLookup(m: map<int, seq<byte>>, n: Option<seq<byte>>, pid: int, rs: seq<UserRecord>)
    requires exists i :: 0 <= i < |rs| && rs[i].playerId == pid
    ensures pid in LookupAfter(m, rs) && NameAfter(n, pid, rs) == Some(LookupAfter(m, rs)[pid])
  {
    var init := rs[..|rs| - 1];
    if rs[|rs| - 1].playerId != pid {
      var i :| 0 <= i < |rs| && rs[i].playerId == pid;
      assert init[i] == rs[i];
      NameAgreesWithLookup(m, n, pid, init);
    }
  }

  /** A player whose id appears in no record keeps its name. */
  lemma {:induction false} NameUntouched(n: Option<seq<byte>>, pid: int, rs: seq<UserRecord>)
    requires forall i :: 0 <= i < |rs| ==> rs[i].playerId != pid
    ensures NameAfter(n, pid, rs) == n
  {
    if rs != [] {
      var init := rs[..|rs| - 1];
      assert forall i :: 0 <= i < |init| ==> init[i] == rs[i];
      NameUntouched(n, pid, init);
    }
  }
}
