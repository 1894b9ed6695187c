/** How the counts of the invariant change when one room, or the log, changes. */
module Counting {
  import opened Types
  import opened RoomModel
  import opened Invariant

  lemma SomeRoomsMembers(rooms: map<RoomId, Room>) returns (q: RoomId)
    requires rooms != map[]
    ensures q in rooms && Members(rooms) == |rooms[q].users| + Members(rooms - {q})
  {
    q :| q in rooms && Members(rooms) == |rooms[q].users| + Members(rooms - {q});
  }

  lemma {:induction false} MembersWithout(rooms: map<RoomId, Room>, r: RoomId)
    requires r in rooms
    ensures Members(rooms) == |rooms[r].users| + Members(rooms - {r})
    decreases |rooms|
  {
    hide Members;
    var q := SomeRoomsMembers(rooms);
    if q != r {
      MembersWithout(rooms - {q}, r);
      MembersWithout(rooms - {r}, q);
      assert rooms - {q} - {r} == rooms - {r} - {q};
    }
  }

  lemma SomeRoomsSessions(rooms: map<RoomId, Room>) returns (q: RoomId)
    requires rooms != map[]
    ensures q in rooms && LiveSessions(rooms) == |rooms[q].sessions| + LiveSessions(rooms - {q})
  {
    q :| q in rooms && LiveSessions(rooms) == |rooms[q].sessions| + LiveSessions(rooms - {q});
  }

  lemma {:induction false} LiveSessionsWithout(rooms: map<RoomId, Room>, r: RoomId)
    requires r in rooms
    ensures LiveSessions(rooms) == |rooms[r].sessions| + LiveSessions(rooms - {r})
    decreases |rooms|
  {
    hide LiveSessions;
    var q := SomeRoomsSessions(rooms);
    if q != r {
      LiveSessionsWithout(rooms - {q}, r);
      LiveSessionsWithout(rooms - {r}, q);
      assert rooms - {q} - {r} == rooms - {r} - {q};
    }
  }

  lemma UpdateThenRemove<K, V>(m: map<K, V>, k: K, v: V)
    ensures m[k := v] - {k} == m - {k}
    ensures k !in m ==> m - {k} == m
    ensures |m[k := v]| == if k in m then |m| else |m| + 1
  {
    assert m[k := v].Keys == m.Keys + {k};
    assert |m[k := v].Keys| == |m[k := v]|;
  }

  lemma RoomReplaced(rooms: map<RoomId, Room>, room: Room, r: RoomId)
    requires r in rooms
    ensures Members(rooms[r := room]) == Members(rooms) - |rooms[r].users| + |room.users|
    ensures LiveSessions(rooms[r := room]) == LiveSessions(rooms) - |rooms[r].sessions| + |room.sessions|
    ensures |rooms[r := room]| == |rooms|
  {
    var changed := rooms[r := room];
    MembersWithout(rooms, r);
    MembersWithout(changed, r);
    LiveSessionsWithout(rooms, r);
    LiveSessionsWithout(changed, r);
    UpdateThenRemove(rooms, r, room);
  }

  lemma RoomAdded(rooms: map<RoomId, Room>, room: Room, r: RoomId)
    requires r !in rooms
    ensures Members(rooms[r := room]) == Members(rooms) + |room.users|
    ensures LiveSessions(rooms[r := room]) == LiveSessions(rooms) + |room.sessions|
    ensures |rooms[r := room]| == |rooms| + 1
  {
    var changed := rooms[r := room];
    MembersWithout(changed, r);
    LiveSessionsWithout(changed, r);
    UpdateThenRemove(rooms, r, room);
  }

  lemma RoomRemoved(rooms: map<RoomId, Room>, r: RoomId)
    requires r in rooms
    ensures Members(rooms - {r}) == Members(rooms) - |rooms[r].users|
    ensures LiveSessions(rooms - {r}) == LiveSessions(rooms) - |rooms[r].sessions|
    ensures |rooms - {r}| == |rooms| - 1
  {
    MembersWithout(rooms, r);
    LiveSessionsWithout(rooms, r);
    assert (rooms - {r}).Keys == rooms.Keys - {r};
  }

  lemma MapRemoveSize<K, V>(m: map<K, V>, ks: set<K>)
    requires ks <= m.Keys
    ensures |m - ks| == |m| - |ks|
  {
    assert (m - ks).Keys == m.Keys - ks;
    assert |m.Keys - ks| == |m.Keys| - |ks|;
  }

  lemma SaidOnce(log: seq<multiset<Delivery>>, phase: multiset<Delivery>)
    ensures Sent(log + [phase]) == Sent(log) + phase
  {
    assert (log + [phase])[..|log|] == log;
  }

  lemma NamesAreDistinct(a: Xid, b: Xid)
    ensures NameId(HostName(a)) == a && NameId(ClientName(a)) == a
    ensures HostName(a) != ClientName(b)
    ensures HostName(a) == HostName(b) ==> a == b
    ensures ClientName(a) == ClientName(b) ==> a == b
  {
    NameIdInverts(a);
    NameIdInverts(b);
    var h, c := HostName(a), ClientName(b);
    assert h[|h| - 2] == 's' && c[|c| - 2] == 'n';
  }

  lemma NameIdInverts(a: Xid)
    ensures NameId(HostName(a)) == a && NameId(ClientName(a)) == a
  {
    var h, c := HostName(a), ClientName(a);
    assert h[|h| - 2] == 's';
    if |h| >= 6 {
      assert h[|h| - 6..][4] == 's' && "client"[4] == 'n';
    }
    assert h[..|h| - 4] == a.text;
    assert c[|c| - 6..] == "client";
    assert c[..|c| - 6] == a.text;
  }
}
