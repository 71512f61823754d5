/** Advertised games. A game host is an immutable record built from the fields
    of one advertisement plus a unique id drawn from the process-wide counter
    `NextUniqueGameID`, a 32-bit unsigned value that is advanced once per host.
    The map fields are decoded out of the raw stat string by a decoder that is
    not part of this model (`decodeStat`); when it fails they take their
    default values, and the raw stat string is always kept as it came. */
module GameHosts {
  import opened Bytes

  /** 2^32: the counter is a 32-bit unsigned integer and wraps there. */
  const IdModulus := 0x1_0000_0000

  /** The constructor arguments of a game host, as read from the wire. */
  datatype Advert = Advert(
    gameType: uint16, parameter: uint16, languageId: uint32, port: uint16,
    ip: seq<byte>, status: uint32, elapsedTime: uint32, gameName: string,
    slotsTotal: byte, hostCounter: uint32, statString: seq<byte>)

  /** The fields decoded out of a stat string. */
  datatype MapInfo = MapInfo(
    mapFlags: uint32, mapWidth: uint16, mapHeight: uint16, mapCRC: seq<byte>,
    mapPath: string, hostName: string)

  const DefaultMapInfo := MapInfo(0, 0, 0, [], "", "")

  /** An incoming game host: immutable, read through its fields. */
  datatype GameHost = GameHost(
    gameType: uint16, parameter: uint16, languageId: uint32, port: uint16,
    ip: seq<byte>, status: uint32, elapsedTime: uint32, gameName: string,
    slotsTotal: byte, hostCounter: uint32, statString: seq<byte>,
    uniqueGameId: uint32, mapInfo: MapInfo)

  /** The constructor arguments a host was built from. */
  function ArgumentsOf(h: GameHost): Advert {
    Advert(h.gameType, h.parameter, h.languageId, h.port, h.ip, h.status,
           h.elapsedTime, h.gameName, h.slotsTotal, h.hostCounter, h.statString)
  }

  /** The host built from `a` with unique id `id`: its getters give back the
      constructor arguments, the raw stat string unchanged, the id, and the
      decoded map fields or their defaults. */
  function MakeHost(a: Advert, id: uint32, decodeStat: seq<byte> -> Option<MapInfo>): (h: GameHost)
    ensures ArgumentsOf(h) == a
    ensures h.uniqueGameId == id
    ensures decodeStat(a.statString).Some? ==> h.mapInfo == decodeStat(a.statString).value
    ensures decodeStat(a.statString).None? ==> h.mapInfo == DefaultMapInfo
  {
    GameHost(a.gameType, a.parameter, a.languageId, a.port, a.ip, a.status,
             a.elapsedTime, a.gameName, a.slotsTotal, a.hostCounter, a.statString,
             id, decodeStat(a.statString).GetOr(DefaultMapInfo))
  }

  /** The id handed out `i` hosts after `first`, with 32-bit wrap-around. */
  function IdAt(first: uint32, i: nat): uint32 {
    (first + i) % IdModulus
  }

  lemma IdAtNext(first: uint32, i: nat)
    ensures IdAt(IdAt(first, 1), i) == IdAt(first, i + 1)
  {
    if first + 1 == IdModulus {
      assert IdAt(first, 1) == 0;
      assert (first + i + 1) % IdModulus == i % IdModulus by {
        assert first + i + 1 == i + IdModulus;
      }
    }
  }

  /** Advancing the counter once from the id `i` hosts after `first` gives
      the id `i + 1` hosts after `first`. */
  lemma IdAtStep(first: uint32, i: nat)
    ensures IdAt(IdAt(first, i), 1) == IdAt(first, i + 1)
  {
    var q, r := (first + i) / IdModulus, (first + i) % IdModulus;
    assert first + i == q * IdModulus + r;
    if r + 1 < IdModulus {
      assert first + i + 1 == q * IdModulus + (r + 1);
    } else {
      assert first + i + 1 == (q + 1) * IdModulus;
    }
  }

  /** The hosts built, in order, from `adverts`, the first taking id `first`
      and each following one the next id. */
  function HostsFrom(adverts: seq<Advert>, first: uint32, decodeStat: seq<byte> -> Option<MapInfo>): (hosts: seq<GameHost>)
    ensures |hosts| == |adverts|
    ensures forall i :: 0 <= i < |adverts| ==> hosts[i] == MakeHost(adverts[i], IdAt(first, i), decodeStat)
    decreases |adverts|
  {
    if adverts == [] then []
    else
      var rest := HostsFrom(adverts[1..], IdAt(first, 1), decodeStat);
      assert forall i :: 1 <= i < |adverts| ==> IdAt(IdAt(first, 1), i - 1) == IdAt(first, i) by {
        forall i | 1 <= i < |adverts| ensures IdAt(IdAt(first, 1), i - 1) == IdAt(first, i) {
          IdAtNext(first, i - 1);
        }
      }
      [MakeHost(adverts[0], first, decodeStat)] + rest
  }

  /** A sequence that agrees with `HostsFrom` host by host is `HostsFrom`. */
  lemma HostsFromPointwise(adverts: seq<Advert>, first: uint32, decodeStat: seq<byte> -> Option<MapInfo>, hosts: seq<GameHost>)
    requires |hosts| == |adverts|
    requires forall k :: 0 <= k < |adverts| ==> hosts[k] == MakeHost(adverts[k], IdAt(first, k), decodeStat)
    ensures hosts == HostsFrom(adverts, first, decodeStat)
  {
  }

  /** A batch of at most 2^32 hosts never hands out the same id twice. */
  lemma BatchIdsDistinct(first: uint32, n: nat)
    requires n <= IdModulus
    ensures forall i, j :: 0 <= i < j < n ==> IdAt(first, i) != IdAt(first, j)
  {
    forall i, j | 0 <= i < j < n ensures IdAt(first, i) != IdAt(first, j) {
      var x, y := first + i, first + j;
      assert x < 2 * IdModulus && y < 2 * IdModulus;
      assert IdAt(first, i) == if x < IdModulus then x else x - IdModulus;
      assert IdAt(first, j) == if y < IdModulus then y else y - IdModulus;
    }
  }

  /** As long as the counter does not wrap, later hosts get larger ids. */
  lemma BatchIdsIncrease(first: uint32, n: nat)
    requires first + n <= IdModulus
    ensures forall i, j :: 0 <= i < j < n ==> IdAt(first, i) < IdAt(first, j)
  {
    forall i, j | 0 <= i < j < n ensures IdAt(first, i) < IdAt(first, j) {
      assert IdAt(first, i) == first + i;
      assert IdAt(first, j) == first + j;
    }
  }

  /** A second batch drawn after a first one gets ids larger than every id of
      the first, as long as the counter does not wrap. */
  lemma SuccessiveBatchesIncrease(first: uint32, n1: nat, n2: nat)
    requires first + n1 + n2 <= IdModulus
    ensures forall i, j :: 0 <= i < n1 && 0 <= j < n2 ==> IdAt(first, i) < IdAt(IdAt(first, n1), j)
  {
    forall i, j | 0 <= i < n1 && 0 <= j < n2 ensures IdAt(first, i) < IdAt(IdAt(first, n1), j) {
      assert IdAt(first, n1) == first + n1;
    }
  }

  /** The process-wide source of unique game ids. */
  class GameIdCounter {
    var nextUniqueGameId: uint32

    constructor ()
      ensures nextUniqueGameId == 1
    {
      nextUniqueGameId := 1;
    }

    /** Constructs a game host: it takes the current id and advances the counter by one. */
    method NewGameHost(a: Advert, decodeStat: seq<byte> -> Option<MapInfo>) returns (h: GameHost)
      modifies this
      ensures h == MakeHost(a, old(nextUniqueGameId), decodeStat)
      ensures nextUniqueGameId == IdAt(old(nextUniqueGameId), 1)
      ensures old(nextUniqueGameId) < IdModulus - 1 ==> nextUniqueGameId > old(nextUniqueGameId)
    {
      h := MakeHost(a, nextUniqueGameId, decodeStat);
      nextUniqueGameId := IdAt(nextUniqueGameId, 1);
    }

    /** Constructs one game host per advertisement, in order, each taking the
        counter's next id: the batch `HostsFrom` describes, with the counter
        advanced once per host. */
    method NewGameHosts(adverts: seq<Advert>, decodeStat: seq<byte> -> Option<MapInfo>) returns (hosts: seq<GameHost>)
      modifies this
      ensures hosts == HostsFrom(adverts, old(nextUniqueGameId), decodeStat)
      ensures nextUniqueGameId == IdAt(old(nextUniqueGameId), |adverts|)
    {
      ghost var first := nextUniqueGameId;
      hosts := [];
      var i := 0;
      while i < |adverts|
        invariant 0 <= i <= |adverts|
        invariant nextUniqueGameId == IdAt(first, i)
        invariant |hosts| == i
        invariant forall k :: 0 <= k < i ==> hosts[k] == MakeHost(adverts[k], IdAt(first, k), decodeStat)
      {
        var h := NewGameHost(adverts[i], decodeStat);
        IdAtStep(first, i);
        hosts := hosts + [h];
        i := i + 1;
      }
      HostsFromPointwise(adverts, first, decodeStat, hosts);
    }
  }
}
