/** The way of a place: from the message of one game through its client, the server and another client to
    the other game. */
module Places {
  import opened Bytes
  import opened Wire
  import opened Positions
  import opened ClientSession
  import opened ServerPlayer
  import Ipc

  /** What a game reads in a position message. */
  datatype Sighting = Sighting(localID: uint16, color: Bytes2, name: Bytes8, place: Place)

  type Bytes2 = s: seq<byte> | |s| == 2 witness [0, 0]

  function ReadSighting(b: seq<byte>): Sighting
    requires |b| == 20
  {
    Sighting(FromBE16(b[0..2]), b[2..4], b[4..12],
             Place(FromBE16(b[12..14]), FromBE16(b[14..16]), FromBE16(b[16..18]), FromBE16(b[18..20])))
  }

  lemma PlaceFields(p: Place, rest: seq<byte>)
    ensures var b := BE16(p.key) + BE16(p.x) + BE16(p.y) + BE16(p.z) + rest;
            |b| >= 8 && PlaceOf(b) == p
  {
    var b := BE16(p.key) + BE16(p.x) + BE16(p.y) + BE16(p.z) + rest;
    assert b[0..2] == BE16(p.key) && b[2..4] == BE16(p.x) && b[4..6] == BE16(p.y) && b[6..8] == BE16(p.z);
  }

  lemma PacketFields(id: Bytes16, name: Bytes8, p: Place)
    ensures var d := PositionPacket(id, name, ClientPosition(p)).data;
            && |d| == 34 && d[0..16] == id && d[16..24] == name && d[24..26] == LE16(p.key)
            && d[26..28] == LE16(p.x) && d[28..30] == LE16(p.y) && d[30..32] == LE16(p.z)
  {
    var c := ClientPosition(p);
    assert c[..8] == c;
    assert c[0..2] == LE16(p.key) && c[2..4] == LE16(p.x) && c[4..6] == LE16(p.y) && c[6..8] == LE16(p.z);
    var d := id + name + c + [0, 0];
    assert PositionPacket(id, name, c).data == d;
    assert d[0..16] == id && d[16..24] == name;
    assert forall i :: 0 <= i < 8 ==> d[24 + i] == c[i];
  }

  /** Whatever place a game sends, the other games are told of exactly that place, with the id and name
      of the player; its colour is the beginning of its id. */
  lemma PlaceEndToEnd(p: Place, rest: seq<byte>, id: Bytes16, name: Bytes8, localID: uint16)
    ensures var body := BE16(p.key) + BE16(p.x) + BE16(p.y) + BE16(p.z) + rest;
            && |body| >= 8
            && var pkt := PositionPacket(id, name, ClientPosition(PlaceOf(body)));
               && pkt.op == OP_POSITION && |pkt.data| == 34 && pkt.data[0..16] == id && pkt.data[16..24] == name
               && var m := PositionMessage(localID, pkt.data);
                  && m.op == Ipc.IPC_POSITION && |m.payload| == 20
                  && ReadSighting(m.payload) == Sighting(localID, id[0..2], name, p)
  {
    PlaceFields(p, rest);
    PacketFields(id, name, p);
    var d := PositionPacket(id, name, ClientPosition(p)).data;
    assert d[0..2] == id[0..2];
    var m := PositionMessage(localID, d).payload;
    assert m == BE16(localID) + id[0..2] + name + BE16(p.key) + BE16(p.x) + BE16(p.y) + BE16(p.z);
    assert m[0..2] == BE16(localID) && m[2..4] == id[0..2] && m[4..12] == name;
    assert m[12..14] == BE16(p.key) && m[14..16] == BE16(p.x);
    assert m[16..18] == BE16(p.y) && m[18..20] == BE16(p.z);
  }
}
