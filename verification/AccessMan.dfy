/**
  The peer access manager of accessman.go: the two maps and the counter that
  track which peers may connect, updated in place by six events.
*/
module AccessMan {
  import opened Options

  /** The serialized public key of a peer; only its identity matters. */
  type Peer = nat

  datatype Access = Restricted | Temporary | Protected

  /** PendingOpenCount is a uint64. */
  const TWO_64: nat := 0x1_0000_0000_0000_0000
  newtype uint64 = x: int | 0 <= x < 0x1_0000_0000_0000_0000

  /** channeldb.ChanCount. */
  datatype ChanCount = ChanCount(open: bool, pending: uint64)

  function Inc(n: uint64): uint64 { if n as int == TWO_64 - 1 then 0 else n + 1 }

  function Dec(n: uint64): uint64 { if n == 0 then (TWO_64 - 1) as uint64 else n - 1 }

  datatype Error =
    | NoPeerScore
    | NoPendingPeerInfo
    | NoMoreSlots
    | Banned
    | BanCheckFailed
    | InvalidTransition

  /** What the ban check answers for a peer. */
  datatype BanCheck = Clear | IsBanned | CheckError

  /** The manager's fields, as a value. */
  datatype State = State(
    info: map<Peer, ChanCount>,
    scores: map<Peer, Access>,
    numRestricted: int
  )

  // ----- What each event does ---------------------------------------------

  function HasPeer(s: State, p: Peer): (Access, bool)
  {
    if p in s.info then
      if s.info[p].open then (Protected, true)
      else if s.info[p].pending != 0 then (Temporary, true)
      else (Restricted, true)
    else if p in s.scores then (s.scores[p], true)
    else (Restricted, false)
  }

  function AssignPerms(s: State, p: Peer, ban: BanCheck, maxSlots: int): (Access, Option<Error>)
  {
    var (access, exist) := HasPeer(s, p);
    if access != Restricted then (access, None)
    else if ban.CheckError? then (access, Some(BanCheckFailed))
    else if ban.IsBanned? then (access, Some(Banned))
    else if exist then (access, None)
    else if s.numRestricted >= maxSlots then (access, Some(NoMoreSlots))
    else (access, None)
  }

  function AcceptIncoming(s: State, p: Peer, maxSlots: int): (bool, Option<Error>)
  {
    if p in s.info || p in s.scores || s.numRestricted < maxSlots then (true, None)
    else (false, Some(NoMoreSlots))
  }

  function AddPeer(s: State, p: Peer, access: Access, inbound: bool): State
  {
    if p in s.scores then s
    else if access != Restricted then s.(scores := s.scores[p := access])
    else if inbound then
      s.(scores := s.scores[p := access], numRestricted := s.numRestricted + 1)
    else
      s.(scores := s.scores[p := Temporary], info := s.info[p := ChanCount(false, 0)])
  }

  function RemovePeer(s: State, p: Peer): State
  {
    if p !in s.scores then s
    else
      var n := if s.scores[p] == Restricted then s.numRestricted - 1 else s.numRestricted;
      if p in s.info && !s.info[p].open && s.info[p].pending == 0
      then State(s.info - {p}, s.scores - {p}, n)
      else State(s.info, s.scores - {p}, n)
  }

  function PendingOpen(s: State, p: Peer): (State, Option<Error>)
  {
    if p !in s.scores then (s, Some(NoPeerScore))
    else match s.scores[p]
      case Protected => (s, None)
      case Temporary =>
        if p !in s.info then (s, Some(NoPendingPeerInfo))
        else (s.(info := s.info[p := s.info[p].(pending := Inc(s.info[p].pending))]), None)
      case Restricted =>
        (State(s.info[p := ChanCount(false, 1)], s.scores[p := Temporary], s.numRestricted - 1), None)
  }

  function PendingClose(s: State, p: Peer, maxSlots: int): (State, Option<Error>)
  {
    if p !in s.scores then (s, Some(NoPeerScore))
    else match s.scores[p]
      case Protected => (s, None)
      case Temporary =>
        if p !in s.info then (s, Some(NoPendingPeerInfo))
        else
          var left := Dec(s.info[p].pending);
          if left != 0 then (s.(info := s.info[p := s.info[p].(pending := left)]), None)
          else if s.numRestricted == maxSlots then (s.(info := s.info - {p}), Some(NoMoreSlots))
          else (State(s.info - {p}, s.scores[p := Restricted], s.numRestricted + 1), None)
      case Restricted => (s, Some(InvalidTransition))
  }

  function OpenChan(s: State, p: Peer): (State, Option<Error>)
  {
    if p !in s.scores then (s, Some(NoPeerScore))
    else match s.scores[p]
      case Protected => (s, None)
      case Temporary =>
        if p !in s.info then (s, Some(NoPendingPeerInfo))
        else
          (s.(info := s.info[p := ChanCount(true, Dec(s.info[p].pending))],
              scores := s.scores[p := Protected]), None)
      case Restricted => (s, Some(InvalidTransition))
  }

  // ----- The manager itself -----------------------------------------------

  class AccessManager {
    const maxRestrictedSlots: int
    var peerChanInfo: map<Peer, ChanCount>
    var peerScores: map<Peer, Access>
    var numRestricted: int

    function View(): State
      reads this
    {
      State(peerChanInfo, peerScores, numRestricted)
    }

    constructor (counts: map<Peer, ChanCount>, maxSlots: int)
      ensures View() == State(counts, map[], 0) && maxRestrictedSlots == maxSlots
    {
      maxRestrictedSlots := maxSlots;
      peerChanInfo := counts;
      peerScores := map[];
      numRestricted := 0;
    }

    /** `hasPeer`. */
    method FindPeer(pub: Peer) returns (access: Access, found: bool)
      ensures (access, found) == HasPeer(View(), pub)
    {
      found := pub in peerChanInfo;
      if found {
        var count := peerChanInfo[pub];
        if count.open { return Protected, true; }
        if count.pending != 0 { return Temporary, true; }
        return Restricted, true;
      }
      found := pub in peerScores;
      if found { return peerScores[pub], true; }
      return Restricted, false;
    }

    /** `assignPeerPerms`. */
    method AssignPeerPerms(pub: Peer, ban: BanCheck) returns (access: Access, err: Option<Error>)
      ensures (access, err) == AssignPerms(View(), pub, ban, maxRestrictedSlots)
    {
      var exist;
      access, exist := FindPeer(pub);
      if access != Restricted { return access, None; }
      if ban == CheckError { return access, Some(BanCheckFailed); }
      if ban == IsBanned { return access, Some(Banned); }
      if exist { return access, None; }
      if numRestricted >= maxRestrictedSlots { return access, Some(NoMoreSlots); }
      return access, None;
    }

    method CheckAcceptIncomingConn(pub: Peer) returns (accept: bool, err: Option<Error>)
      ensures (accept, err) == AcceptIncoming(View(), pub, maxRestrictedSlots)
    {
      if pub in peerChanInfo { return true, None; }
      if pub in peerScores { return true, None; }
      if numRestricted < maxRestrictedSlots { return true, None; }
      return false, Some(NoMoreSlots);
    }

    method AddPeerAccess(pub: Peer, access: Access, inbound: bool)
      modifies this
      ensures View() == AddPeer(old(View()), pub, access, inbound)
    {
      if pub in peerScores { return; }
      peerScores := peerScores[pub := access];
      if access != Restricted { return; }
      if inbound {
        numRestricted := numRestricted + 1;
        return;
      }
      peerChanInfo := peerChanInfo[pub := ChanCount(false, 0)];
      peerScores := peerScores[pub := Temporary];
      assert peerScores == old(peerScores)[pub := Temporary];
    }

    method RemovePeerAccess(pub: Peer)
      modifies this
      ensures View() == RemovePeer(old(View()), pub)
    {
      if pub !in peerScores { return; }
      if peerScores[pub] == Restricted { numRestricted := numRestricted - 1; }
      peerScores := peerScores - {pub};
      if pub !in peerChanInfo { return; }
      if peerChanInfo[pub].open { return; }
      if peerChanInfo[pub].pending != 0 { return; }
      peerChanInfo := peerChanInfo - {pub};
    }

    method NewPendingOpenChan(pub: Peer) returns (err: Option<Error>)
      modifies this
      ensures (View(), err) == PendingOpen(old(View()), pub)
    {
      if pub !in peerScores { return Some(NoPeerScore); }
      match peerScores[pub] {
        case Protected => return None;
        case Temporary =>
          if pub !in peerChanInfo { return Some(NoPendingPeerInfo); }
          var count := peerChanInfo[pub];
          count := count.(pending := Inc(count.pending));
          peerChanInfo := peerChanInfo[pub := count];
        case Restricted =>
          peerChanInfo := peerChanInfo[pub := ChanCount(false, 1)];
          numRestricted := numRestricted - 1;
          peerScores := peerScores[pub := Temporary];
      }
      return None;
    }

    method NewPendingCloseChan(pub: Peer) returns (err: Option<Error>)
      modifies this
      ensures (View(), err) == PendingClose(old(View()), pub, maxRestrictedSlots)
    {
      if pub !in peerScores { return Some(NoPeerScore); }
      match peerScores[pub] {
        case Protected => return None;
        case Temporary =>
          if pub !in peerChanInfo { return Some(NoPendingPeerInfo); }
          var count := peerChanInfo[pub];
          var left := Dec(count.pending);
          if left == 0 {
            peerChanInfo := peerChanInfo - {pub};
            if numRestricted == maxRestrictedSlots { return Some(NoMoreSlots); }
            peerScores := peerScores[pub := Restricted];
            numRestricted := numRestricted + 1;
            return None;
          }
          peerChanInfo := peerChanInfo[pub := count.(pending := left)];
          return None;
        case Restricted => return Some(InvalidTransition);
      }
    }

    method NewOpenChan(pub: Peer) returns (err: Option<Error>)
      modifies this
      ensures (View(), err) == OpenChan(old(View()), pub)
    {
      if pub !in peerScores { return Some(NoPeerScore); }
      match peerScores[pub] {
        case Protected => return None;
        case Temporary =>
          if pub !in peerChanInfo { return Some(NoPendingPeerInfo); }
          var count := peerChanInfo[pub];
          count := count.(open := true, pending := Dec(count.pending));
          peerChanInfo := peerChanInfo[pub := count];
          peerScores := peerScores[pub := Protected];
          return None;
        case Restricted => return Some(InvalidTransition);
      }
    }
  }
}
