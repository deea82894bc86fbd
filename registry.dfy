// The table of player instances (g_players): MAX_PLAYERS slots indexed by handle, the
// lookup every public function starts with, adding and removing instances, counting
// them, and the two loops of the JACK process callback that visit the players: one
// period of audio for each, then the MIDI input routed by channel.
module Registry {
  import opened Wrappers
  import opened AudioTypes
  import opened PortBuffers
  import opened AudioPlayer
  import opened Midi

  /** A MIDI event as the JACK MIDI port delivers it: status byte and two data bytes. */
  datatype MidiEvent = MidiEvent(status: nat, d1: nat, d2: nat)

  predicate Bytes(e: MidiEvent) { e.status < 256 && e.d1 < 256 && e.d2 < 256 }

  /** The player a MIDI event goes to: the channel of its status byte. */
  function Target(e: MidiEvent): (c: nat)
    ensures c < MAX_PLAYERS && c == Channel(e.status)
  {
    Channel(e.status)
  }

  /** One pair of output ports per handle, the two of a pair of equal length; `owner`
      numbers each buffer by its handle and leg, so no two ports share a buffer. */
  predicate Ports(outsA: seq<array<real>>, outsB: seq<array<real>>, owner: map<array<real>, nat>) {
    |outsA| == MAX_PLAYERS && |outsB| == MAX_PLAYERS
    && forall i :: 0 <= i < MAX_PLAYERS ==>
         outsA[i].Length == outsB[i].Length
         && outsA[i] in owner && owner[outsA[i]] == 2 * i && outsB[i] in owner && owner[outsB[i]] == 2 * i + 1
  }

  /** Some event in `events` is on channel c. */
  predicate Addressed(events: seq<MidiEvent>, c: nat) {
    exists k :: 0 <= k < |events| && Target(events[k]) == c
  }

  /** The number of occupied slots, counted from the first. */
  function Occupied(s: seq<Player?>): (n: nat)
    ensures n <= |s|
  {
    if s == [] then 0 else Occupied(s[..|s| - 1]) + (if s[|s| - 1] != null then 1 else 0)
  }

  /** Filling or emptying one slot changes the count by at most one, exactly as the slot
      changes from empty to occupied or back. */
  lemma {:induction false} OccupiedUpdate(s: seq<Player?>, h: nat, p: Player?)
    requires h < |s|
    ensures Occupied(s[h := p]) + (if s[h] != null then 1 else 0)
         == Occupied(s) + (if p != null then 1 else 0)
    decreases |s|
  {
    var last := |s| - 1;
    assert s[h := p][..last] == if h == last then s[..last] else s[..last][h := p];
    if h < last {
      OccupiedUpdate(s[..last], h, p);
    }
  }

  /** The count is the number of handles whose slot is occupied. */
  lemma {:induction false} OccupiedCountsHandles(s: seq<Player?>)
    ensures Occupied(s) == |set i | 0 <= i < |s| && s[i] != null|
    decreases |s|
  {
    if s != [] {
      var last := |s| - 1;
      OccupiedCountsHandles(s[..last]);
      var before := set i | 0 <= i < last && s[..last][i] != null;
      var all := set i | 0 <= i < |s| && s[i] != null;
      if s[last] != null {
        assert all == before + {last};
      } else {
        assert all == before;
      }
    }
  }

  /** get_player as written: handles above MAX_PLAYERS and negative ones give no player,
      and any other is looked up in the table; handle MAX_PLAYERS passes the guard and is
      read past the end of the table (None: no defined result). */
  function GetPlayerAsWritten(slots: seq<Player?>, h: int): (r: Option<Player?>)
    requires |slots| == MAX_PLAYERS
    ensures r.None? <==> h == MAX_PLAYERS
    ensures r.Some? && r.value != null ==> 0 <= h < MAX_PLAYERS && r.value == slots[h]
  {
    if h > MAX_PLAYERS || h < 0 then Some(null)
    else if h < |slots| then Some(slots[h])
    else None
  }

  /** The handle one past the table passes the as-written guard. */
  lemma GetPlayerAsWrittenOverruns(slots: seq<Player?>)
    requires |slots| == MAX_PLAYERS
    ensures GetPlayerAsWritten(slots, MAX_PLAYERS).None?
    ensures !(0 <= MAX_PLAYERS < |slots|)
  {
  }

  class Players {
    const slots: array<Player?>

    /** The instances in the table. */
    function Occupants(): set<Player>
      reads slots
    {
      set i | 0 <= i < slots.Length && slots[i] != null :: slots[i]
    }

    /** The table has MAX_PLAYERS slots and the instance in slot h has handle h (so no
        instance is in two slots) and is itself consistent. */
    predicate Valid()
      reads slots, Occupants()
    {
      slots.Length == MAX_PLAYERS
      && forall i :: 0 <= i < slots.Length && slots[i] != null ==> slots[i].handle == i && slots[i].Valid()
    }

    /** The table at library load: every slot empty. */
    constructor ()
      ensures Valid() && fresh(slots)
      ensures forall i :: 0 <= i < slots.Length ==> slots[i] == null
    {
      slots := new Player?[MAX_PLAYERS](_ => null);
    }

    /** get_player, as intended: the instance in slot h, none for a handle outside the
        table. */
    function GetPlayer(h: int): (p: Player?)
      requires Valid()
      reads slots, Occupants()
      ensures p != null ==> 0 <= h < MAX_PLAYERS && p.handle == h && p.Valid()
      ensures 0 <= h < MAX_PLAYERS && slots[h] != null ==> p == slots[h]
    {
      if 0 <= h < MAX_PLAYERS then slots[h] else null
    }

    /** The corrected lookup agrees with the as-written one wherever that one is defined. */
    lemma GetPlayerAgrees(h: int)
      requires Valid()
      ensures h != MAX_PLAYERS ==> GetPlayerAsWritten(slots[..], h) == Some(GetPlayer(h))
    {
    }

    /** add_player: creates an instance in an empty slot of the table. `registered` is
        whether JACK registered both of its output ports; without them the instance is
        not stored. */
    method AddPlayer(h: int, registered: bool) returns (ok: bool)
      requires Valid()
      modifies slots
      ensures Valid()
      ensures ok <==> 0 <= h < MAX_PLAYERS && old(slots[h]) == null && registered
      ensures ok ==> fresh(slots[h]) && slots[h].Initial(h)
      ensures forall i :: 0 <= i < MAX_PLAYERS && !(ok && i == h) ==> slots[i] == old(slots[i])
      ensures Occupied(slots[..]) == old(Occupied(slots[..])) + (if ok then 1 else 0)
    {
      if !(0 <= h < MAX_PLAYERS && slots[h] == null) {
        return false;
      }
      var p := new Player(h);
      if !registered {
        return false;
      }
      OccupiedUpdate(slots[..], h, p);
      slots[h] := p;
      assert slots[..] == old(slots[..])[h := p];
      return true;
    }

    /** remove_player: unloads the instance in slot h and empties the slot; no effect on
        an empty slot or a handle outside the table. */
    method RemovePlayer(h: int, rate: nat)
      requires Valid()
      modifies slots, Occupants()
      ensures Valid()
      ensures 0 <= h < MAX_PLAYERS ==> slots[h] == null
      ensures forall i :: 0 <= i < MAX_PLAYERS && i != h ==> slots[i] == old(slots[i])
      ensures forall i :: 0 <= i < MAX_PLAYERS && i != h && slots[i] != null ==> unchanged(slots[i])
      ensures old(GetPlayer(h)) != null ==> old(GetPlayer(h)).fileOpen == Closed
      ensures Occupied(slots[..]) == old(Occupied(slots[..])) - (if old(GetPlayer(h)) != null then 1 else 0)
    {
      var p := GetPlayer(h);
      if p == null {
        return;
      }
      p.Unload(rate);
      OccupiedUpdate(slots[..], h, null);
      slots[h] := null;
      assert slots[..] == old(slots[..])[h := null];
    }

    /** get_player_count: the loop over the table counting occupied slots. */
    method GetPlayerCount() returns (count: nat)
      requires Valid()
      ensures count == Occupied(slots[..])
      ensures count == |set i | 0 <= i < MAX_PLAYERS && slots[i] != null|
    {
      count := 0;
      var i := 0;
      while i < MAX_PLAYERS
        invariant i <= MAX_PLAYERS
        invariant count == Occupied(slots[..i])
      {
        assert slots[..i + 1][..i] == slots[..i];
        if slots[i] != null {
          count := count + 1;
        }
        i := i + 1;
      }
      assert slots[..i] == slots[..];
      OccupiedCountsHandles(slots[..]);
      assert (set j | 0 <= j < |slots[..]| && slots[..][j] != null) == (set j | 0 <= j < MAX_PLAYERS && slots[j] != null);
    }

    /** Each instance's state, none for an empty slot. */
    ghost function States(): (r: seq<Option<PlayerState>>)
      requires slots.Length == MAX_PLAYERS
      reads slots, Occupants()
      ensures |r| == MAX_PLAYERS
      ensures forall j :: 0 <= j < MAX_PLAYERS ==> r[j] == if slots[j] != null then Some(slots[j].State()) else None
    {
      seq(MAX_PLAYERS, j requires 0 <= j < MAX_PLAYERS reads slots, Occupants() =>
        if slots[j] != null then Some(slots[j].State()) else None)
    }

    /** The contents of the port buffers. */
    ghost function Contents(outs: seq<array<real>>): (r: seq<seq<real>>)
      reads set j | 0 <= j < |outs| :: outs[j]
      ensures |r| == |outs| && forall j :: 0 <= j < |outs| ==> r[j] == outs[j][..]
    {
      seq(|outs|, j requires 0 <= j < |outs| reads set k | 0 <= k < |outs| :: outs[k] => outs[j][..])
    }

    /** The audio loop after handles below i: those instances have run their period from
        the states and port contents in before, a0 and b0; the others are as they were. */
    ghost predicate AudioDone(i: nat, outsA: seq<array<real>>, outsB: seq<array<real>>,
                              before: seq<Option<PlayerState>>, a0: seq<seq<real>>, b0: seq<seq<real>>,
                              aCounts: seq<nat>, rCounts: seq<nat>)
      requires Valid() && |outsA| == MAX_PLAYERS && |outsB| == MAX_PLAYERS && i <= MAX_PLAYERS
      requires |before| == MAX_PLAYERS && |a0| == MAX_PLAYERS && |b0| == MAX_PLAYERS
      reads slots, Occupants(), set j | 0 <= j < MAX_PLAYERS :: outsA[j], set j | 0 <= j < MAX_PLAYERS :: outsB[j]
    {
      |aCounts| == i && |rCounts| == i
      && (forall j :: 0 <= j < MAX_PLAYERS ==> (slots[j] != null <==> before[j].Some?))
      && (forall j :: 0 <= j < i && slots[j] != null ==>
            PeriodStep(before[j].value, a0[j], b0[j], slots[j].State(), outsA[j][..], outsB[j][..], aCounts[j], rCounts[j]))
      && (forall j :: i <= j < MAX_PLAYERS && slots[j] != null ==> slots[j].State() == before[j].value)
      && (forall j :: 0 <= j < MAX_PLAYERS && (i <= j || slots[j] == null) ==> outsA[j][..] == a0[j] && outsB[j][..] == b0[j])
    }

    /** The audio loop of the process callback: every instance with an open file runs
        one period into its own pair of output ports (aCounts and rCounts record, per
        handle, the samples written and drained); instances without one, and the ports of
        empty slots, are left as they were. */
    method ProcessAudio(outsA: seq<array<real>>, outsB: seq<array<real>>, ghost owner: map<array<real>, nat>)
        returns (ghost aCounts: seq<nat>, ghost rCounts: seq<nat>)
      requires Valid() && Ports(outsA, outsB, owner)
      modifies Occupants(), owner.Keys
      ensures Valid() && Occupants() == old(Occupants())
      ensures |aCounts| == MAX_PLAYERS && |rCounts| == MAX_PLAYERS
      ensures forall i :: 0 <= i < MAX_PLAYERS && slots[i] != null ==>
                PeriodStep(old(slots[i].State()), old(outsA[i][..]), old(outsB[i][..]),
                           slots[i].State(), outsA[i][..], outsB[i][..], aCounts[i], rCounts[i])
      ensures forall i :: 0 <= i < MAX_PLAYERS && slots[i] == null ==> outsA[i][..] == old(outsA[i][..]) && outsB[i][..] == old(outsB[i][..])
    {
      ghost var before, a0, b0 := States(), Contents(outsA), Contents(outsB);
      aCounts, rCounts := [], [];
      var i := 0;
      while i < MAX_PLAYERS
        invariant i <= MAX_PLAYERS && Valid() && Occupants() == old(Occupants())
        invariant AudioDone(i, outsA, outsB, before, a0, b0, aCounts, rCounts)
      {
        var aCount, rCount := Visit(i, outsA, outsB, owner, before, a0, b0, aCounts, rCounts);
        aCounts, rCounts := aCounts + [aCount], rCounts + [rCount];
        i := i + 1;
      }
    }

    /** One turn of the audio loop: the instance with handle i, if any and if it has an
        open file, runs one period into ports i. */
    method Visit(i: nat, outsA: seq<array<real>>, outsB: seq<array<real>>, ghost owner: map<array<real>, nat>,
                 ghost before: seq<Option<PlayerState>>, ghost a0: seq<seq<real>>, ghost b0: seq<seq<real>>,
                 ghost aCounts: seq<nat>, ghost rCounts: seq<nat>)
        returns (aCount: nat, rCount: nat)
      requires Valid() && Ports(outsA, outsB, owner) && i < MAX_PLAYERS
      requires |before| == MAX_PLAYERS && |a0| == MAX_PLAYERS && |b0| == MAX_PLAYERS
      requires AudioDone(i, outsA, outsB, before, a0, b0, aCounts, rCounts)
      modifies Occupants(), outsA[i], outsB[i]
      ensures Valid() && Occupants() == old(Occupants())
      ensures AudioDone(i + 1, outsA, outsB, before, a0, b0, aCounts + [aCount], rCounts + [rCount])
    {
      aCount, rCount := 0, 0;
      var p := slots[i];
      if p != null {
        aCount, rCount := p.Process(outsA[i], outsB[i]);
      }
    }

    /** One MIDI event of the period: it goes to the instance whose handle is its channel
        (channels 0 to 15, so the last slot never receives MIDI); other instances are not
        touched. */
    method RouteMidi(e: MidiEvent, rate: nat)
      requires Valid() && Bytes(e)
      modifies Occupants()
      ensures Valid() && Occupants() == old(Occupants())
      ensures slots[Target(e)] != null ==> slots[Target(e)].MidiApplied(e.status, e.d1, e.d2, rate)
      ensures forall i :: 0 <= i < MAX_PLAYERS && i != Target(e) && slots[i] != null ==> unchanged(slots[i])
    {
      var p := slots[Target(e)];
      if p != null {
        p.Midi(e.status, e.d1, e.d2, rate);
      }
    }

    /** The MIDI loop of the process callback: each event in order, routed by channel.
        Instances on channels no event addresses are not touched. */
    method ProcessMidi(events: seq<MidiEvent>, rate: nat)
      requires Valid() && forall k :: 0 <= k < |events| ==> Bytes(events[k])
      modifies Occupants()
      ensures Valid() && Occupants() == old(Occupants())
      ensures forall i :: 0 <= i < MAX_PLAYERS && slots[i] != null && !Addressed(events, i) ==> unchanged(slots[i])
    {
      var k := 0;
      while k < |events|
        invariant k <= |events| && Valid() && Occupants() == old(Occupants())
        invariant forall i :: 0 <= i < MAX_PLAYERS && slots[i] != null && !Addressed(events[..k], i) ==> unchanged(slots[i])
      {
        RouteMidi(events[k], rate);
        assert events[..k + 1] == events[..k] + [events[k]];
        k := k + 1;
      }
      assert events[..k] == events;
    }
  }
}
