// A processing chain (zynthian_chain): its node grid and MIDI input settings, the audio
// and MIDI routing lists, the ZS3 (sub-snapshot) slots and the path strings shown for it.
module Chain {
  import opened Wrappers
  import opened Text

  const COLS_NODE_GRID: nat := 16
  const ROWS_NODE_GRID: nat := 16

  /** The number of ZS3 slots. */
  const ZS3_SLOTS: nat := 128

  /** A node of the grid, known here only by an identifier. */
  type NodeId = nat

  /** A sub-snapshot: a dictionary, empty in this version of the chain. */
  type Zs3 = map<string, string>

  /** The outcome of indexing a Python list: the item, or the IndexError raised for an
      index out of range. */
  datatype Indexed<T> = Item(item: T) | IndexError

  /** The note range and transposition settings. */
  datatype NoteRangeTrans = NoteRangeTrans(noteLow: int, noteHigh: int, octaveTrans: int, halftoneTrans: int)

  // ---------------------------------------------------------------------------
  // Routing lists
  // ---------------------------------------------------------------------------

  /** No name appears twice. */
  predicate NoDup(s: seq<string>)
  {
    forall i, j :: 0 <= i < j < |s| ==> s[i] != s[j]
  }

  /** The list after appending x unless it is already there. */
  function Added(s: seq<string>, x: string): (r: seq<string>)
    ensures x in r && s <= r && |r| <= |s| + 1
    ensures forall y :: y in r <==> y in s || y == x
  {
    if x in s then s else s + [x]
  }

  /** Adding never creates a duplicate, and adding twice is adding once. */
  lemma AddedNoDup(s: seq<string>, x: string)
    requires NoDup(s)
    ensures NoDup(Added(s, x)) && Added(Added(s, x), x) == Added(s, x)
  {
  }

  /** list.remove(x): the first occurrence of x taken out; the list unchanged when x is
      absent (the exception this raises is swallowed by the callers). */
  function Removed(s: seq<string>, x: string): (r: seq<string>)
    ensures x !in s ==> r == s
    ensures x in s ==> |r| == |s| - 1
    ensures forall y :: y in r ==> y in s
  {
    if s == [] then []
    else
      assert s == [s[0]] + s[1..];
      if s[0] == x then s[1..] else [s[0]] + Removed(s[1..], x)
  }

  /** The index of the first occurrence of x. */
  function FirstIndex(s: seq<string>, x: string): (i: nat)
    requires x in s
    ensures i < |s| && s[i] == x && x !in s[..i]
  {
    if s[0] == x then 0 else 1 + FirstIndex(s[1..], x)
  }

  /** Removal takes out exactly the first occurrence and keeps the order of the rest. */
  lemma {:induction false} RemovedFirst(s: seq<string>, x: string)
    requires x in s
    ensures var i := FirstIndex(s, x); Removed(s, x) == s[..i] + s[i + 1..]
    decreases |s|
  {
    if s[0] == x {
      assert s[..0] == [];
    } else {
      var t := s[1..];
      RemovedFirst(t, x);
      var j := FirstIndex(t, x);
      ConsSlices(s, j);
      assert Removed(s, x) == [s[0]] + (t[..j] + t[j + 1..]);
    }
  }

  /** Removal takes one x out of the contents. */
  lemma RemovedMultiset(s: seq<string>, x: string)
    requires x in s
    ensures multiset(Removed(s, x)) == multiset(s) - multiset{x}
  {
    RemovedFirst(s, x);
    var i := FirstIndex(s, x);
    assert s == s[..i] + [x] + s[i + 1..];
  }

  /** Slices of the tail of s, seen as slices of s. */
  lemma ConsSlices(s: seq<string>, j: nat)
    requires j + 1 < |s|
    ensures forall tail: seq<string> :: [s[0]] + (s[1..][..j] + tail) == s[..j + 1] + tail
    ensures s[1..][j + 1..] == s[j + 2..]
  {
    assert [s[0]] + s[1..][..j] == s[..j + 1];
  }

  /** Removing from a list without duplicates leaves no x and no duplicate. */
  lemma {:induction false} RemovedNoDup(s: seq<string>, x: string)
    requires NoDup(s)
    ensures NoDup(Removed(s, x)) && x !in Removed(s, x)
    decreases |s|
  {
    if s != [] {
      var t := s[1..];
      assert NoDup(t) by {
        forall a, b | 0 <= a < b < |t| ensures t[a] != t[b] { assert t[a] == s[a + 1] && t[b] == s[b + 1]; }
      }
      assert s[0] !in t by {
        forall k | 0 <= k < |t| ensures t[k] != s[0] { assert t[k] == s[k + 1]; }
      }
      if s[0] != x {
        RemovedNoDup(t, x);
      }
    }
  }

  /** The list after toggling x: appended when absent, its first occurrence removed when
      present. */
  function Toggled(s: seq<string>, x: string): seq<string>
  {
    if x !in s then s + [x] else Removed(s, x)
  }

  /** Toggling twice restores the list when x was absent, restores its contents (in some
      order) when x was there once, and never changes whether another name is there. */
  lemma ToggleTwice(s: seq<string>, x: string)
    ensures x !in s ==> Toggled(Toggled(s, x), x) == s
    ensures multiset(s)[x] == 1 ==> multiset(Toggled(Toggled(s, x), x)) == multiset(s)
    ensures forall y :: y != x ==> (y in Toggled(Toggled(s, x), x) <==> y in s)
  {
    var t := Toggled(s, x);
    if x !in s {
      assert x in t;
      assert Removed(s + [x], x) == s by { RemovedLast(s, x); }
    } else {
      RemovedMultiset(s, x);
      assert multiset(t) == multiset(s) - multiset{x};
      if multiset(s)[x] == 1 {
        assert x !in multiset(t);
      }
    }
    var u := Toggled(t, x);
    if x in t { RemovedMultiset(t, x); }
    forall y | y != x ensures y in u <==> y in s {
      assert y in s <==> y in multiset(s);
      assert y in t <==> y in multiset(t);
      assert y in u <==> y in multiset(u);
    }
  }

  /** Removing a name that is only at the end takes off the end. */
  lemma {:induction false} RemovedLast(s: seq<string>, x: string)
    requires x !in s
    ensures Removed(s + [x], x) == s
    decreases |s|
  {
    if s != [] {
      assert (s + [x])[1..] == s[1..] + [x];
      RemovedLast(s[1..], x);
      assert [s[0]] + s[1..] == s;
    }
  }

  /** The legacy routing fix of set_audio_out: a "system" entry is replaced by the two
      system playback ports, appended at the end. */
  function LegacyFixed(ao: seq<string>): seq<string>
  {
    if "system" in ao then Removed(ao, "system") + ["system:playback_1", "system:playback_2"] else ao
  }

  /** The fix takes out one "system" entry, adds both playback ports and keeps every other
      name; a list without "system" is kept as it is. */
  lemma LegacyFixedContents(ao: seq<string>)
    ensures "system" !in ao ==> LegacyFixed(ao) == ao
    ensures "system" in ao ==>
      (multiset(LegacyFixed(ao)) == multiset(ao) - multiset{"system"} + multiset{"system:playback_1", "system:playback_2"})
    ensures "system" in ao && multiset(ao)["system"] == 1 ==> "system" !in LegacyFixed(ao)
  {
    if "system" in ao {
      RemovedMultiset(ao, "system");
      var r := LegacyFixed(ao);
      assert multiset(r) == multiset(Removed(ao, "system")) + multiset(["system:playback_1", "system:playback_2"]);
      if multiset(ao)["system"] == 1 {
        assert multiset(r)["system"] == 0;
      }
    }
  }

  /** The mixer input port of strip n, side 'a' or 'b': "zynmixer:input_" and n with
      at least two digits. */
  function MixerPort(n: nat, side: char): string
  {
    "zynmixer:input_" + TwoDigits(n) + [side]
  }

  /** The strip number a mixer input port names, if it is one: the digits between
      "zynmixer:input_" and a final side letter. */
  function MixerStrip(p: string): Option<nat>
  {
    if |p| >= 17 && p[..15] == "zynmixer:input_" && forall k :: 15 <= k < |p| - 1 ==> IsDigit(p[k])
    then Some(DecimalValue(p[15..|p| - 1]))
    else None
  }

  /** A mixer port names its strip. */
  lemma MixerPortNamed(n: nat, side: char)
    ensures MixerStrip(MixerPort(n, side)) == Some(n)
    ensures var p := MixerPort(n, side); p[|p| - 1] == side
  {
    var p := MixerPort(n, side);
    assert p[15..|p| - 1] == TwoDigits(n);
    assert p[..15] == "zynmixer:input_";
  }

  /** The output ports of reset_audio_out: the mixer strip of the chain's MIDI channel,
      numbered from 1, or the system playback pair without a channel. */
  function ResetAudioPorts(midiChan: Option<nat>): seq<string>
  {
    match midiChan
    case None => ["system:playback_1", "system:playback_2"]
    case Some(c) => [MixerPort(c + 1, 'a'), MixerPort(c + 1, 'b')]
  }

  /** Two distinct ports; with a channel they are the 'a' and 'b' sides of the mixer
      strip numbered channel + 1. */
  lemma ResetAudioPortsNamed(midiChan: Option<nat>)
    ensures var r := ResetAudioPorts(midiChan); |r| == 2 && r[0] != r[1]
    ensures midiChan.Some? ==> var r := ResetAudioPorts(midiChan);
      MixerStrip(r[0]) == Some(midiChan.value + 1) && MixerStrip(r[1]) == Some(midiChan.value + 1)
  {
    var r := ResetAudioPorts(midiChan);
    if midiChan.Some? {
      MixerPortNamed(midiChan.value + 1, 'a');
      MixerPortNamed(midiChan.value + 1, 'b');
      assert r[0][|r[0]| - 1] != r[1][|r[1]| - 1];
    } else {
      assert r[0][16] != r[1][16];
    }
  }

  // ---------------------------------------------------------------------------
  // Path strings
  // ---------------------------------------------------------------------------

  /** Python truth of an optional string: present and not empty. */
  predicate Truthy(o: Option<string>) { o.Some? && o.value != "" }

  /** A bank name worth showing: truthy and not the text "None". */
  predicate ShownBank(bank: Option<string>) { Truthy(bank) && bank.value != "None" }

  /** The value of an expression that may be a string, None, or fail with a TypeError. */
  datatype PyValue = Str(text: string) | NoneValue | TypeError

  /** get_path: the bank name, followed by "/preset" when there is a preset. With no bank
      name the result is None, or a TypeError when a preset is to be appended to it. */
  function GetPath(bank: Option<string>, preset: Option<string>): (r: PyValue)
    ensures bank.None? ==> (r == TypeError <==> Truthy(preset)) && (r == NoneValue <==> !Truthy(preset))
    ensures bank.Some? && !Truthy(preset) ==> r == Str(bank.value)
    ensures bank.Some? && Truthy(preset) ==> r == Str(bank.value + "/" + preset.value)
  {
    match bank
    case None => if Truthy(preset) then TypeError else NoneValue
    case Some(b) => Str(if Truthy(preset) then b + "/" + preset.value else b)
  }

  /** get_basepath: the engine's path for the chain, prefixed by "<channel + 1>#" when
      the chain has a MIDI channel. */
  function GetBasepath(enginePath: string, midiChan: Option<nat>): string
  {
    match midiChan
    case None => enginePath
    case Some(c) => Decimal(c + 1) + "#" + enginePath
  }

  /** The channel prefix reads back: the text before the first '#' of a base path is the
      channel plus one, and the rest is the engine's path. */
  lemma BasepathChannel(enginePath: string, c: nat)
    ensures var parts := Split(GetBasepath(enginePath, Some(c)), '#');
      |parts| >= 2 && parts[0] == Decimal(c + 1) && DecimalValue(parts[0]) == c + 1
      && GetBasepath(enginePath, Some(c)) == parts[0] + "#" + enginePath
  {
    var d := Decimal(c + 1);
    assert '#' !in d by {
      forall k | 0 <= k < |d| ensures d[k] != '#' { assert IsDigit(d[k]); }
    }
    SplitPrefix(d, enginePath, '#');
    DecimalRoundTrip(c + 1);
  }

  /** Splitting `a + [c] + b` at c gives a first when a holds no c. */
  lemma {:induction false} SplitPrefix(a: string, b: string, c: char)
    requires c !in a
    ensures |Split(a + [c] + b, c)| >= 2 && Split(a + [c] + b, c)[0] == a
    decreases |a|
  {
    var s := a + [c] + b;
    if a == [] {
      assert s[0] == c;
      assert s[1..] == b;
    } else {
      assert s[1..] == a[1..] + [c] + b;
      assert c !in a[1..] by {
        forall k | 0 <= k < |a[1..]| ensures a[1..][k] != c { assert a[1..][k] == a[k + 1]; }
      }
      SplitPrefix(a[1..], b, c);
      assert [a[0]] + a[1..] == a;
    }
  }

  /** get_bankpath: the base path, followed by " > bank" when the bank is shown. */
  function GetBankpath(basepath: string, bank: Option<string>): string
  {
    if ShownBank(bank) then basepath + " > " + bank.value else basepath
  }

  /** get_presetpath: the base path, followed by " > bank", " > bank/preset" or
      " > preset", whichever of the bank and preset are there. */
  function GetPresetpath(basepath: string, bank: Option<string>, preset: Option<string>): string
  {
    var subpath :=
      if ShownBank(bank) then Some(if Truthy(preset) then bank.value + "/" + preset.value else bank.value)
      else if Truthy(preset) then Some(preset.value)
      else None;
    if Truthy(subpath) then basepath + " > " + subpath.value else basepath
  }

  /** The three forms of the preset path, and its agreement with the bank path: it is the
      bank path, extended by "/preset" when the bank is shown and there is a preset. */
  lemma PresetpathForms(basepath: string, bank: Option<string>, preset: Option<string>)
    ensures ShownBank(bank) && Truthy(preset) ==>
      GetPresetpath(basepath, bank, preset) == GetBankpath(basepath, bank) + "/" + preset.value
    ensures ShownBank(bank) && !Truthy(preset) ==> GetPresetpath(basepath, bank, preset) == GetBankpath(basepath, bank)
    ensures !ShownBank(bank) && Truthy(preset) ==> GetPresetpath(basepath, bank, preset) == basepath + " > " + preset.value
    ensures !ShownBank(bank) && !Truthy(preset) ==> GetPresetpath(basepath, bank, preset) == basepath
    ensures GetPresetpath(basepath, bank, preset)[..|basepath|] == basepath
  {
  }

  // ---------------------------------------------------------------------------
  // The chain
  // ---------------------------------------------------------------------------

  class Chain {
    var nodes: seq<seq<Option<NodeId>>>
    var midiInputDevs: seq<string>
    var midiOutputDevs: seq<string>
    var midiInputChans: seq<Option<nat>>
    var noteRangeTrans: NoteRangeTrans
    var audioInput: seq<string>
    var audioOutput: seq<string>
    var title: Option<string>
    /** The routing lists the routing operations work on; __init__ does not set them. */
    var audioOut: seq<string>
    var audioIn: seq<string>
    var midiOut: seq<string>
    /** The ZS3 slots; __init__ does not set them either. */
    var zs3List: seq<Option<Zs3>>

    /** A new chain: an empty 16×16 node grid, no MIDI devices, all 16 MIDI input
        channels ignored, the full note range untransposed, no audio ports, no title. */
    constructor ()
      ensures |nodes| == ROWS_NODE_GRID
      ensures forall r :: 0 <= r < |nodes| ==> |nodes[r]| == COLS_NODE_GRID && forall c :: 0 <= c < |nodes[r]| ==> nodes[r][c].None?
      ensures midiInputDevs == [] && midiOutputDevs == []
      ensures |midiInputChans| == 16 && forall ch :: 0 <= ch < 16 ==> midiInputChans[ch].None?
      ensures noteRangeTrans == NoteRangeTrans(0, 127, 0, 0)
      ensures audioInput == [] && audioOutput == [] && title.None?
    {
      nodes := seq(ROWS_NODE_GRID, _ => seq(COLS_NODE_GRID, _ => None));
      midiInputDevs, midiOutputDevs := [], [];
      midiInputChans := seq(16, _ => None);
      noteRangeTrans := NoteRangeTrans(0, 127, 0, 0);
      audioInput, audioOutput := [], [];
      title := None;
    }

    method SetMidiInputDevs(devs: seq<string>)
      modifies this`midiInputDevs
      ensures midiInputDevs == devs
    {
      midiInputDevs := devs;
    }

    method SetMidiInputChans(chans: seq<Option<nat>>)
      modifies this`midiInputChans
      ensures midiInputChans == chans
    {
      midiInputChans := chans;
    }

    // ZS3 slots

    /** Whether i is a Python index into the ZS3 list: negative ones count from the end. */
    predicate InZs3(i: int)
      reads this
    {
      -|zs3List| <= i < |zs3List|
    }

    /** The slot a Python index names. */
    function Slot(i: int): (k: nat)
      reads this
      requires InZs3(i)
      ensures k < |zs3List| && (i >= 0 ==> k == i) && (i < 0 ==> k == |zs3List| + i)
    {
      if i < 0 then |zs3List| + i else i
    }

    /** reset_zs3: 128 empty slots. */
    method ResetZs3()
      modifies this`zs3List
      ensures zs3List == seq(ZS3_SLOTS, _ => None)
    {
      zs3List := seq(ZS3_SLOTS, _ => None);
    }

    /** delete_zs3: empties slot i and no other; an index out of range raises
        IndexError and leaves the list as it was. */
    method DeleteZs3(i: int) returns (raised: bool)
      modifies this`zs3List
      ensures raised <==> !old(InZs3(i))
      ensures raised ==> zs3List == old(zs3List)
      ensures !raised ==> |zs3List| == |old(zs3List)| && zs3List[old(Slot(i))].None?
      ensures !raised ==> forall k :: 0 <= k < |zs3List| && k != old(Slot(i)) ==> zs3List[k] == old(zs3List[k])
    {
      raised := !InZs3(i);
      if !raised {
        zs3List := zs3List[Slot(i) := None];
      }
    }

    /** get_zs3: the content of slot i, or IndexError for an index out of range. */
    function GetZs3(i: int): (r: Indexed<Option<Zs3>>)
      reads this
      ensures r.IndexError? <==> !InZs3(i)
      ensures r.Item? ==> r.item == zs3List[Slot(i)]
    {
      if InZs3(i) then Item(zs3List[Slot(i)]) else IndexError
    }

    /** save_zs3: stores an empty sub-snapshot in slot i; an index out of range raises
        inside the try block and is only logged. */
    method SaveZs3(i: int)
      modifies this`zs3List
      ensures old(InZs3(i)) ==> zs3List == old(zs3List)[old(Slot(i)) := Some(map[])]
      ensures !old(InZs3(i)) ==> zs3List == old(zs3List)
    {
      if InZs3(i) {
        zs3List := zs3List[Slot(i) := Some(map[])];
      }
    }

    /** restore_zs3: True exactly when slot i holds a non-empty sub-snapshot; the
        lookup of an index out of range raises IndexError. */
    method RestoreZs3(i: int) returns (r: Indexed<bool>)
      ensures r.IndexError? <==> !InZs3(i)
      ensures r.Item? ==> (r.item <==> GetZs3(i).item.Some? && |GetZs3(i).item.value| > 0)
    {
      if !InZs3(i) {
        return IndexError;
      }
      var zs3 := zs3List[Slot(i)];
      r := Item(zs3.Some? && |zs3.value| > 0);
    }

    // Audio output routing

    /** set_audio_out: a copy of ao with the legacy "system" entry rewritten. */
    method SetAudioOut(ao: seq<string>)
      modifies this`audioOut
      ensures audioOut == LegacyFixed(ao)
    {
      audioOut := ao;
      if "system" in audioOut {
        audioOut := Removed(audioOut, "system");
        audioOut := audioOut + ["system:playback_1", "system:playback_2"];
      }
    }

    method AddAudioOut(jackname: string)
      modifies this`audioOut
      ensures audioOut == Added(old(audioOut), jackname)
    {
      if jackname !in audioOut {
        audioOut := audioOut + [jackname];
      }
    }

    method DelAudioOut(jackname: string)
      modifies this`audioOut
      ensures audioOut == Removed(old(audioOut), jackname)
    {
      audioOut := Removed(audioOut, jackname);
    }

    method ToggleAudioOut(jackname: string)
      modifies this`audioOut
      ensures audioOut == Toggled(old(audioOut), jackname)
    {
      if jackname !in audioOut {
        audioOut := audioOut + [jackname];
      } else {
        audioOut := Removed(audioOut, jackname);
      }
    }

    method ResetAudioOut(midiChan: Option<nat>)
      modifies this`audioOut
      ensures audioOut == ResetAudioPorts(midiChan)
    {
      audioOut := ["system:playback_1", "system:playback_2"];
      if midiChan.Some? {
        audioOut := [MixerPort(midiChan.value + 1, 'a'), MixerPort(midiChan.value + 1, 'b')];
      }
    }

    method MuteAudioOut()
      modifies this`audioOut
      ensures audioOut == []
    {
      audioOut := [];
    }

    // Audio input routing

    method SetAudioIn(ai: seq<string>)
      modifies this`audioIn
      ensures audioIn == ai
    {
      audioIn := ai;
    }

    method AddAudioIn(jackname: string)
      modifies this`audioIn
      ensures audioIn == Added(old(audioIn), jackname)
    {
      if jackname !in audioIn {
        audioIn := audioIn + [jackname];
      }
    }

    method DelAudioIn(jackname: string)
      modifies this`audioIn
      ensures audioIn == Removed(old(audioIn), jackname)
    {
      audioIn := Removed(audioIn, jackname);
    }

    method ToggleAudioIn(jackname: string)
      modifies this`audioIn
      ensures audioIn == Toggled(old(audioIn), jackname)
    {
      if jackname !in audioIn {
        audioIn := audioIn + [jackname];
      } else {
        audioIn := Removed(audioIn, jackname);
      }
    }

    method ResetAudioIn()
      modifies this`audioIn
      ensures audioIn == ["system:capture_1", "system:capture_2"]
    {
      audioIn := ["system:capture_1", "system:capture_2"];
    }

    method MuteAudioIn()
      modifies this`audioIn
      ensures audioIn == []
    {
      audioIn := [];
    }

    // MIDI output routing

    method SetMidiOut(mo: seq<string>)
      modifies this`midiOut
      ensures midiOut == mo
    {
      midiOut := mo;
    }

    method AddMidiOut(jackname: string)
      modifies this`midiOut
      ensures midiOut == Added(old(midiOut), jackname)
    {
      if jackname !in midiOut {
        midiOut := midiOut + [jackname];
      }
    }

    method DelMidiOut(jackname: string)
      modifies this`midiOut
      ensures midiOut == Removed(old(midiOut), jackname)
    {
      midiOut := Removed(midiOut, jackname);
    }

    method ToggleMidiOut(jackname: string)
      modifies this`midiOut
      ensures midiOut == Toggled(old(midiOut), jackname)
    {
      if jackname !in midiOut {
        midiOut := midiOut + [jackname];
      } else {
        midiOut := Removed(midiOut, jackname);
      }
    }

    method MuteMidiOut()
      modifies this`midiOut
      ensures midiOut == []
    {
      midiOut := [];
    }
  }

  /** Saving a sub-snapshot and restoring it reports failure: the slot holds an empty
      dictionary, which is false. */
  lemma SavedZs3IsFalse(zs3List: seq<Option<Zs3>>, k: nat)
    requires k < |zs3List|
    ensures var z := zs3List[k := Some(map[])][k]; !(z.Some? && |z.value| > 0)
  {
  }
}
