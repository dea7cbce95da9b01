/** The position system object (client/internal/game/position_system.go), proved against
    PositionState. */
module Positions {
  import opened Wrappers
  import opened Bytes
  import opened PositionState

  /** A place in the game; the coordinates are 16-bit patterns. */
  datatype Place = Place(key: uint16, x: uint16, y: uint16, z: uint16)

  const NOWHERE: uint16 := 0xffff

  /** A place as the client sends it. */
  function ClientPosition(p: Place): (b: seq<byte>)
    ensures |b| == 8
  {
    LE16(p.key) + LE16(p.x) + LE16(p.y) + LE16(p.z)
  }

  class PositionSystem {
    // Where the game was last, until that has been sent.
    var pos: Place
    var local: map<PlayerID, PlayerData>
    var localIdFree: seq<uint16>
    var localIdNext: uint16

    function View(): State
      reads this
    {
      State(local, localIdFree, localIdNext)
    }

    constructor ()
      ensures View() == INIT && pos.key == NOWHERE
    {
      pos := Place(NOWHERE, 0, 0, 0);
      local, localIdFree, localIdNext := map[], [], 1;
    }

    method OnGamePos(place: Place)
      modifies `pos
      ensures pos == place
    {
      pos := place;
    }

    /** What the next tick has to send on, if the game has moved. */
    method SendSelfPos() returns (data: Option<seq<byte>>)
      modifies `pos
      ensures old(pos).key == 0xffff ==> data == None && pos == old(pos)
      ensures old(pos).key != 0xffff ==> data == Some(ClientPosition(old(pos))) && pos == old(pos).(key := 0xffff)
    {
      if pos.key == NOWHERE {
        return None;
      }
      data := Some(ClientPosition(pos));
      pos := pos.(key := NOWHERE);
    }

    /** A position packet; returns the local id under which the game is told of it. */
    method OnServerPos(id: PlayerID, name: Bytes8) returns (localID: uint16)
      modifies `local, `localIdFree, `localIdNext
      ensures View() == OnPosition(old(View()), id, name)
      ensures id in local && localID == local[id].localID
    {
      if id !in local {
        if |localIdFree| > 0 {
          localID := localIdFree[|localIdFree| - 1];
          localIdFree := localIdFree[..|localIdFree| - 1];
        } else {
          localID := localIdNext;
          localIdNext := (localIdNext + 1) % 0x1_0000;
        }
        local := local[id := PlayerData(name, localID, 30)];
      } else {
        localID := local[id].localID;
        local := local[id := local[id].(ttl := 30)];
      }
    }

    /** One tick: the loop deletes from the map it ranges over, visiting its keys in any order. */
    method LowerTTLs() returns (ghost order: seq<PlayerID>)
      modifies `local, `localIdFree
      ensures IsOrder(order, old(local).Keys)
      ensures View() == LowerAll(old(View()), order)
    {
      order := [];
      var todo := local.Keys;
      while todo != {}
        invariant Distinct(order)
        invariant forall id :: id in order <==> id in old(local) && id !in todo
        invariant todo <= old(local).Keys && todo <= local.Keys
        invariant View() == LowerAll(old(View()), order)
        decreases todo
      {
        var id :| id in todo;
        todo := todo - {id};
        LowerAllSnoc(old(View()), order, id);
        var data := local[id].(ttl := local[id].ttl - 1);
        if data.ttl <= 0 {
          local := local - {id};
          localIdFree := localIdFree + [data.localID];
        } else {
          local := local[id := data];
        }
        order := order + [id];
      }
    }
  }

  lemma LowerAllSnoc(s: State, order: seq<PlayerID>, id: PlayerID)
    ensures LowerAll(s, order + [id]) == LowerOne(LowerAll(s, order), id)
    ensures id !in order && Distinct(order) ==> Distinct(order + [id])
    ensures forall x :: x in order + [id] <==> x in order || x == id
  {
    assert (order + [id])[..|order|] == order;
  }
}
