// The MOD-HOST engine (zynthian_engine_modhost): a pedalboard's command lines are read
// into a table of plugins and parameters, each parameter gets the next MIDI CC number and
// a midi_map command, and the parameters are grouped into controller screens of four.
module ModHost {
  import opened Wrappers
  import opened Text
  import AudioTypes

  /** A line of pedalboard commands as the patterns of mh_commands recognise it, the
      patterns tried in this order: `add <uri> <id>`, `connect <port> ttymidi:MIDI_in`,
      `param_set <id> <name> <value>`, `bypass <id> <value>`; any other line is Other.
      A value is None when float() cannot read the matched text (such as "1.2.3"). */
  datatype Line =
    | Add(uri: string, id: string)
    | ConnectMidiIn(port: string)
    | ParamSet(id: string, name: string, value: Option<real>)
    | Bypass(id: string, value: Option<real>)
    | Other

  /** An entry of a plugin's parameter_list. */
  datatype Param = Param(name: string, value: real, min: int, max: int, midiCc: nat)

  /** An entry of plugin_info: the plugin's display name and its parameters. */
  datatype Plugin = Plugin(name: string, params: seq<Param>)

  /** The state of the mh_commands loop: plugin ids in dictionary (insertion) order, the
      plugin_info dictionary, the follow-up commands and the next MIDI CC number. */
  datatype Table = Table(ids: seq<string>, info: map<string, Plugin>, cmds: string, cc: nat)

  /** The state before the first line. */
  const START: Table := Table([], map[], "", 1)

  // ---------------------------------------------------------------------------
  // Plugin names
  // ---------------------------------------------------------------------------

  /** The text after the last c in s (all of s when there is none): s.split(c)[-1]. */
  function LastPiece(s: string, c: char): (r: string)
    ensures c !in r
  {
    var parts := Split(s, c);
    assert parts[|parts| - 1] in parts;
    parts[|parts| - 1]
  }

  /** The second '#'-separated piece of s when s has a '#', else s itself. */
  function HashPart(s: string): (r: string)
    ensures '#' !in r
    ensures forall x :: x !in s ==> x !in r
  {
    var parts := Split(s, '#');
    JoinSplit(s, '#');
    if |parts| > 1 then
      assert parts[1] in parts;
      assert forall x :: x !in s ==> x !in parts[1] by {
        forall x | x !in s ensures x !in parts[1] { PartOfJoin(parts, '#', 1, x); }
      }
      parts[1]
    else
      assert parts == [s];
      s
  }

  /** The plugin name of an `add` line: the URI's last `/` segment, or the text after its
      first `#` (up to any second `#`), with `_` read as a space and surrounding
      whitespace removed. */
  function PluginName(uri: string): string
  {
    Strip(Replace(HashPart(LastPiece(uri, '/')), '_', ' '))
  }

  /** A plugin name holds no `/`, `#` or `_`, and neither starts nor ends with whitespace. */
  lemma PluginNameClean(uri: string)
    ensures var n := PluginName(uri);
      '/' !in n && '#' !in n && '_' !in n && (n == [] || (!Whitespace(n[0]) && !Whitespace(n[|n| - 1])))
  {
    var base := HashPart(LastPiece(uri, '/'));
    var replaced := Replace(base, '_', ' ');
    forall x | x in Strip(replaced)
      ensures x != '/' && x != '#' && x != '_'
    {
      StripChars(replaced, x);
      if x != ' ' {
        ReplaceChars(base, '_', ' ', x);
      }
    }
  }

  /** A character of one of the parts is a character of their join. */
  lemma {:induction false} PartOfJoin(parts: seq<string>, c: char, i: nat, x: char)
    requires |parts| >= 1 && i < |parts| && x !in Join(parts, c)
    ensures x !in parts[i]
    decreases i
  {
    if |parts| > 1 {
      assert Join(parts, c) == parts[0] + [c] + Join(parts[1..], c);
      if i > 0 {
        PartOfJoin(parts[1..], c, i - 1, x);
      }
    }
  }

  /** A URI ending in a plain name (after its last `/`, with no `#`, `_` or surrounding
      whitespace) gives that name. */
  lemma PluginNamePlain(prefix: string, name: string)
    requires '/' !in name && '#' !in name && '_' !in name
    requires name == [] || (!Whitespace(name[0]) && !Whitespace(name[|name| - 1]))
    ensures PluginName(prefix + "/" + name) == name
  {
    SplitSuffix(prefix, name, '/');
    assert LastPiece(prefix + "/" + name, '/') == name;
    SplitAbsent(name, '#');
    assert HashPart(name) == name;
    assert Replace(name, '_', ' ') == name;
    assert Leading(name) == 0;
    if name != [] {
      assert !Whitespace(name[|name| - 1]);
    }
  }

  /** The last piece of `prefix + [c] + s` split at c is s when s holds no c. */
  lemma {:induction false} SplitSuffix(prefix: string, s: string, c: char)
    requires c !in s
    ensures var parts := Split(prefix + [c] + s, c); parts[|parts| - 1] == s
    decreases |prefix|
  {
    var t := prefix + [c] + s;
    if prefix == [] {
      assert t[0] == c && t[1..] == s;
      SplitAbsent(s, c);
    } else {
      assert t[1..] == prefix[1..] + [c] + s;
      assert t[1..][|prefix| - 1] == c;
      SplitSuffix(prefix[1..], s, c);
      var rest := Split(t[1..], c);
      assert |rest| >= 2;
      assert Split(t, c)[1..] == rest[1..] || Split(t, c)[1..] == rest;
    }
  }

  // ---------------------------------------------------------------------------
  // The line loop of mh_commands
  // ---------------------------------------------------------------------------

  /** The parameter name a param_set or bypass line maps; bypass is the ":bypass" name. */
  function ParamName(line: Line): string
    requires line.ParamSet? || line.Bypass?
  {
    if line.ParamSet? then line.name else ":bypass"
  }

  /** A param_set or bypass line for a plugin already added, with a readable value: the
      lines that hand out a MIDI CC. */
  predicate Maps(t: Table, line: Line)
  {
    (line.ParamSet? || line.Bypass?) && line.id in t.info && line.value.Some?
  }

  /** The midi_map command for a mapped parameter on MIDI channel chan. */
  function MidiMap(id: string, name: string, chan: nat, cc: nat): string
  {
    "midi_map " + id + " " + name + " " + Decimal(chan) + " " + Decimal(cc) + "\n"
  }

  /** The follow-up command of a MIDI-input connection. */
  function CaptureCmd(port: string): string
  {
    "connect " + port + " system:midi_capture_1\n"
  }

  /** One line of the loop, with the engine's MIDI channel chan. */
  function Step(t: Table, line: Line, chan: nat): Table
  {
    match line
    case Add(uri, id) =>
      Table(if id in t.info then t.ids else t.ids + [id], t.info[id := Plugin(PluginName(uri), [])], t.cmds, t.cc)
    case ConnectMidiIn(port) =>
      t.(cmds := t.cmds + CaptureCmd(port))
    case Other => t
    case _ =>
      if Maps(t, line) then
        var raw := ParamName(line);
        var p := Param(Replace(raw, '_', ' '), line.value.value, 0, 127, t.cc);
        var plugin := t.info[line.id];
        Table(t.ids, t.info[line.id := plugin.(params := plugin.params + [p])],
              t.cmds + MidiMap(line.id, raw, chan, t.cc), t.cc + 1)
      else t
  }

  /** The lines in order. */
  function Steps(t: Table, lines: seq<Line>, chan: nat): Table
  {
    if lines == [] then t else Step(Steps(t, lines[..|lines| - 1], chan), lines[|lines| - 1], chan)
  }

  /** What each kind of line does: an `add` registers the plugin with no parameters; a
      MIDI-input connection adds exactly its capture command; a mapped parameter is
      appended with range 0 to 127 and the current CC, one midi_map command is added and
      the CC rises by one; a line for an unknown plugin, an unreadable value or any other
      line changes nothing. */
  lemma StepEffects(t: Table, line: Line, chan: nat)
    ensures line.Add? ==> (Step(t, line, chan).info[line.id] == Plugin(PluginName(line.uri), [])
                           && Step(t, line, chan).cc == t.cc && Step(t, line, chan).cmds == t.cmds)
    ensures line.ConnectMidiIn? ==> Step(t, line, chan) == t.(cmds := t.cmds + CaptureCmd(line.port))
    ensures Maps(t, line) ==> var s := Step(t, line, chan);
      s.cc == t.cc + 1 && s.ids == t.ids
      && s.cmds == t.cmds + MidiMap(line.id, ParamName(line), chan, t.cc)
      && s.info.Keys == t.info.Keys
      && s.info[line.id].params == t.info[line.id].params
           + [Param(Replace(ParamName(line), '_', ' '), line.value.value, 0, 127, t.cc)]
      && (forall id :: id in t.info && id != line.id ==> s.info[id] == t.info[id])
    ensures !line.Add? && !line.ConnectMidiIn? && !Maps(t, line) ==> Step(t, line, chan) == t
  {
  }

  /** The ids list and the dictionary hold the same plugins, each once. */
  ghost predicate Indexed(ids: seq<string>, info: map<string, Plugin>)
  {
    (forall i, j :: 0 <= i < j < |ids| ==> ids[i] != ids[j])
    && (forall id :: id in info <==> id in ids)
  }

  /** A plugin's parameters carry CCs 1 to cc - 1 in increasing order, with range 0 to 127. */
  predicate Numbered(p: Plugin, cc: nat)
  {
    (forall k :: 0 <= k < |p.params| ==> 1 <= p.params[k].midiCc < cc && p.params[k].min == 0 && p.params[k].max == 127)
    && (forall i, j :: 0 <= i < j < |p.params| ==> p.params[i].midiCc < p.params[j].midiCc)
  }

  /** No CC is shared between two plugins' parameters. */
  predicate Apart(p: Plugin, q: Plugin)
  {
    forall i, j :: 0 <= i < |p.params| && 0 <= j < |q.params| ==> p.params[i].midiCc != q.params[j].midiCc
  }

  /** The invariant of the loop: the dictionary is indexed by ids, and every parameter
      has its own CC below the next one. */
  ghost predicate Wf(t: Table)
  {
    Indexed(t.ids, t.info) && t.cc >= 1
    && (forall id :: id in t.info ==> Numbered(t.info[id], t.cc))
    && (forall a, b :: a in t.info && b in t.info && a != b ==> Apart(t.info[a], t.info[b]))
  }

  /** A plugin whose CCs are all below cc is apart from a plugin whose CCs are at least cc. */
  lemma ApartBelow(p: Plugin, q: Plugin, cc: nat)
    requires Numbered(p, cc)
    requires forall j :: 0 <= j < |q.params| ==> q.params[j].midiCc >= cc
    ensures Apart(p, q) && Apart(q, p)
  {
  }

  /** Every line keeps the invariant. */
  lemma StepWf(t: Table, line: Line, chan: nat)
    requires Wf(t)
    ensures Wf(Step(t, line, chan))
  {
    if line.Add? {
      AddWf(t, line.uri, line.id);
    } else if Maps(t, line) {
      MapWf(t, line, chan);
    }
  }

  /** An `add` line keeps the invariant: the plugin starts over with no parameters. */
  lemma AddWf(t: Table, uri: string, id: string)
    requires Wf(t)
    ensures Wf(Step(t, Add(uri, id), 0))
  {
    var s := Step(t, Add(uri, id), 0);
    assert s.info == t.info[id := Plugin(PluginName(uri), [])] && s.cc == t.cc;
    assert s.ids == if id in t.info then t.ids else t.ids + [id];
    ResetWf(t, id, PluginName(uri), s);
  }

  /** Registering a plugin with no parameters keeps the invariant. */
  lemma ResetWf(t: Table, id: string, name: string, s: Table)
    requires Wf(t)
    requires s.info == t.info[id := Plugin(name, [])] && s.cc == t.cc
    requires s.ids == if id in t.info then t.ids else t.ids + [id]
    ensures Wf(s)
  {
    forall a | a in s.info ensures Numbered(s.info[a], s.cc) {
      if a != id { assert s.info[a] == t.info[a]; }
    }
    forall a, b | a in s.info && b in s.info && a != b ensures Apart(s.info[a], s.info[b]) {
      if a != id && b != id { assert s.info[a] == t.info[a] && s.info[b] == t.info[b]; }
    }
  }

  /** The plugin with one more parameter, numbered cc, keeps its numbering. */
  lemma AppendNumbered(p: Plugin, q: Plugin, cc: nat)
    requires Numbered(p, cc) && |q.params| == |p.params| + 1 && q.params[..|p.params|] == p.params
    requires q.params[|p.params|].midiCc == cc && q.params[|p.params|].min == 0 && q.params[|p.params|].max == 127
    requires cc >= 1
    ensures Numbered(q, cc + 1)
    ensures forall r: Plugin :: Numbered(r, cc) && Apart(p, r) ==> Apart(q, r) && Apart(r, q)
  {
    forall k | 0 <= k < |p.params| ensures q.params[k] == p.params[k] {
      assert q.params[..|p.params|][k] == q.params[k];
    }
  }

  /** A plugin numbered below cc is numbered below cc + 1. */
  lemma NumberedMore(p: Plugin, cc: nat)
    requires Numbered(p, cc)
    ensures Numbered(p, cc + 1)
  {
  }

  /** A mapped parameter keeps the invariant: its CC is new to every plugin. */
  lemma MapWf(t: Table, line: Line, chan: nat)
    requires Wf(t) && Maps(t, line)
    ensures Wf(Step(t, line, chan))
  {
    var s := Step(t, line, chan);
    var p := t.info[line.id];
    var np := Param(Replace(ParamName(line), '_', ' '), line.value.value, 0, 127, t.cc);
    assert s.info == t.info[line.id := p.(params := p.params + [np])];
    assert s.ids == t.ids && s.cc == t.cc + 1;
    ExtendWf(t, line.id, np, s);
  }

  /** Appending a parameter numbered with the next CC to a known plugin keeps the
      invariant. */
  lemma ExtendWf(t: Table, id: string, np: Param, s: Table)
    requires Wf(t) && id in t.info
    requires np.midiCc == t.cc && np.min == 0 && np.max == 127
    requires s.ids == t.ids && s.cc == t.cc + 1
    requires s.info == t.info[id := t.info[id].(params := t.info[id].params + [np])]
    ensures Wf(s)
  {
    var p := t.info[id];
    var q := s.info[id];
    assert q.params[..|p.params|] == p.params;
    AppendNumbered(p, q, t.cc);
    ExtendNumbered(t, id, q, s);
    ExtendApart(t, id, q, s);
  }

  /** Every plugin stays numbered below the raised CC. */
  lemma ExtendNumbered(t: Table, id: string, q: Plugin, s: Table)
    requires Wf(t) && id in t.info && Numbered(q, t.cc + 1)
    requires s.cc == t.cc + 1 && s.info == t.info[id := q]
    ensures forall a :: a in s.info ==> Numbered(s.info[a], s.cc)
  {
    forall a | a in s.info ensures Numbered(s.info[a], s.cc) {
      if a != id { assert s.info[a] == t.info[a]; NumberedMore(t.info[a], t.cc); }
    }
  }

  /** The extended plugin stays apart from every other plugin. */
  lemma ExtendApart(t: Table, id: string, q: Plugin, s: Table)
    requires Wf(t) && id in t.info && s.info == t.info[id := q]
    requires forall r: Plugin :: Numbered(r, t.cc) && Apart(t.info[id], r) ==> Apart(q, r) && Apart(r, q)
    ensures forall a, b :: a in s.info && b in s.info && a != b ==> Apart(s.info[a], s.info[b])
  {
    forall a, b | a in s.info && b in s.info && a != b ensures Apart(s.info[a], s.info[b]) {
      if a != id && b != id {
        assert s.info[a] == t.info[a] && s.info[b] == t.info[b];
      } else {
        var o := if a == id then b else a;
        assert s.info[o] == t.info[o] && Apart(t.info[id], t.info[o]) && Numbered(t.info[o], t.cc);
      }
    }
  }

  /** The whole command list keeps the invariant: every parameter gets its own CC, and
      each plugin's parameters are numbered in the order of their lines. */
  lemma {:induction false} StepsWf(t: Table, lines: seq<Line>, chan: nat)
    requires Wf(t)
    ensures Wf(Steps(t, lines, chan))
    ensures Steps(t, lines, chan).cc >= t.cc
    decreases |lines|
  {
    if lines != [] {
      StepsWf(t, lines[..|lines| - 1], chan);
      StepWf(Steps(t, lines[..|lines| - 1], chan), lines[|lines| - 1], chan);
    }
  }

  /** The CC counter counts the mapped lines: it starts at 1 and rises by one per line
      that maps a parameter. */
  function MappedLines(t: Table, lines: seq<Line>, chan: nat): nat
  {
    if lines == [] then 0
    else MappedLines(t, lines[..|lines| - 1], chan)
         + (if Maps(Steps(t, lines[..|lines| - 1], chan), lines[|lines| - 1]) then 1 else 0)
  }

  lemma {:induction false} StepsCounts(t: Table, lines: seq<Line>, chan: nat)
    ensures Steps(t, lines, chan).cc == t.cc + MappedLines(t, lines, chan)
    decreases |lines|
  {
    if lines != [] {
      StepsCounts(t, lines[..|lines| - 1], chan);
      StepEffects(Steps(t, lines[..|lines| - 1], chan), lines[|lines| - 1], chan);
    }
  }

  // ---------------------------------------------------------------------------
  // Controller screens (generate_ctrl_list)
  // ---------------------------------------------------------------------------

  /** A controller's value or range: a word ('on', 'off|on') or a number. */
  datatype CtrlValue = Word(word: string) | Number(n: int)

  /** [name, midi cc, value, range] */
  datatype Ctrl = Ctrl(name: string, cc: nat, value: CtrlValue, range: CtrlValue)

  /** [controllers, 0, title] */
  datatype Screen = Screen(ctrls: seq<Ctrl>, page: nat, title: string)

  /** The engine's initial controller screens. */
  const ENGINE_CTRL_LIST: seq<Screen> := [
    Screen([Ctrl("volume", 7, Number(96), Number(127)), Ctrl("pan", 10, Number(64), Number(127)),
            Ctrl("sustain on/off", 64, Word("off"), Word("off|on")), Ctrl("modulation", 1, Number(0), Number(127))],
           0, "main"),
    Screen([Ctrl("volume", 7, Number(96), Number(127)), Ctrl("pan", 10, Number(64), Number(127)),
            Ctrl("portamento on/off", 65, Word("off"), Word("off|on")), Ctrl("portamento", 5, Number(64), Number(127))],
           0, "portamento")]

  /** A name starting with ':' is a switch. */
  predicate Switch(name: string) { |name| > 0 && name[0] == ':' }

  /** The controller of a parameter: a switch shows 'on' above 63 and 'off' otherwise,
      named without its ':'; any other parameter shows its value scaled to 0..127. */
  function Entry(p: Param): (c: Ctrl)
    ensures c.cc == p.midiCc
    ensures Switch(p.name) ==> (c.name == p.name[1..] && c.range == Word("off|on")
                                && (c.value == Word("on") <==> p.value > 63.0) && (c.value == Word("off") <==> p.value <= 63.0))
    ensures !Switch(p.name) ==> c.name == p.name && c.range == Number(127) && c.value.Number?
  {
    if Switch(p.name) then Ctrl(p.name[1..], p.midiCc, Word(if p.value > 63.0 then "on" else "off"), Word("off|on"))
    else Ctrl(p.name, p.midiCc, Number(MidiValue(p)), Number(127))
  }

  /** A parameter's value scaled from its range to 0..127 and truncated, 0 for an empty
      range. */
  function MidiValue(p: Param): (v: int)
    ensures p.min < p.max && p.min as real <= p.value <= p.max as real ==> 0 <= v <= 127
    ensures p.min < p.max && p.value == p.max as real ==> v == 127
  {
    var r := p.max - p.min;
    if r != 0 then
      var x := 127.0 * (p.value - p.min as real) / r as real;
      ScaledBounds(p.value - p.min as real, r as real);
      AudioTypes.Trunc(x)
    else 0
  }

  /** An offset d into a range of width w scales to 0..127, the full width to 127. */
  lemma ScaledBounds(d: real, w: real)
    requires w != 0.0
    ensures 0.0 <= d <= w ==> 0.0 <= 127.0 * d / w <= 127.0
    ensures d == w ==> 127.0 * d / w == 127.0
  {
    assert 127.0 * d / w * w == 127.0 * d;
  }

  /** The controllers of the parameters that have a MIDI CC, in order. */
  function Entries(params: seq<Param>): (es: seq<Ctrl>)
    ensures |es| <= |params|
  {
    if params == [] then []
    else
      var p := params[|params| - 1];
      Entries(params[..|params| - 1]) + (if p.midiCc > 0 then [Entry(p)] else [])
  }

  /** One more parameter adds its controller when it has a MIDI CC. */
  lemma EntriesSnoc(params: seq<Param>, k: nat)
    requires k < |params|
    ensures Entries(params[..k + 1]) == Entries(params[..k]) + (if params[k].midiCc > 0 then [Entry(params[k])] else [])
  {
    assert params[..k + 1][..k] == params[..k];
  }

  /** Parameters all numbered from 1 up give one controller each. */
  lemma {:induction false} EntriesAll(params: seq<Param>)
    requires forall k :: 0 <= k < |params| ==> params[k].midiCc > 0
    ensures Entries(params) == seq(|params|, k requires 0 <= k < |params| => Entry(params[k]))
    decreases |params|
  {
    if params != [] {
      EntriesAll(params[..|params| - 1]);
    }
  }

  /** The title of a plugin's c-th screen. */
  function Title(name: string, c: nat): string
  {
    name + "#" + Decimal(c)
  }

  /** Controllers in screens of four, the last holding what remains, numbered from c. */
  function Chunks(es: seq<Ctrl>, name: string, c: nat): seq<Screen>
    decreases |es|
  {
    if es == [] then []
    else if |es| <= 4 then [Screen(es, 0, Title(name, c))]
    else [Screen(es[..4], 0, Title(name, c))] + Chunks(es[4..], name, c + 1)
  }

  /** All controllers of the screens, in order. */
  function Flatten(screens: seq<Screen>): seq<Ctrl>
  {
    if screens == [] then [] else screens[0].ctrls + Flatten(screens[1..])
  }

  /** n controllers fill ⌈n/4⌉ screens. */
  lemma {:induction false} ChunksCount(es: seq<Ctrl>, name: string, c: nat)
    ensures |Chunks(es, name, c)| == (|es| + 3) / 4
    decreases |es|
  {
    if |es| > 4 {
      ChunksCount(es[4..], name, c + 1);
    }
  }

  /** Every screen but the last holds four controllers, the last one to four. */
  lemma {:induction false} ChunksSizes(es: seq<Ctrl>, name: string, c: nat)
    ensures var s := Chunks(es, name, c);
      (forall k :: 0 <= k < |s| - 1 ==> |s[k].ctrls| == 4) && (s != [] ==> 1 <= |s[|s| - 1].ctrls| <= 4)
    decreases |es|
  {
    if |es| > 4 {
      ChunksSizes(es[4..], name, c + 1);
      var s := Chunks(es, name, c);
      var s' := Chunks(es[4..], name, c + 1);
      assert s == [s[0]] + s';
      assert forall k :: 1 <= k < |s| ==> s[k] == s'[k - 1];
    }
  }

  /** The screens are on page 0 and titled name#c, name#(c+1), ... */
  lemma {:induction false} ChunksTitles(es: seq<Ctrl>, name: string, c: nat)
    ensures forall k :: 0 <= k < |Chunks(es, name, c)| ==>
      Chunks(es, name, c)[k].page == 0 && Chunks(es, name, c)[k].title == Title(name, c + k)
    decreases |es|
  {
    if |es| > 4 {
      ChunksTitles(es[4..], name, c + 1);
      var s := Chunks(es, name, c);
      var s' := Chunks(es[4..], name, c + 1);
      forall k | 1 <= k < |s| ensures s[k].page == 0 && s[k].title == Title(name, c + k) {
        assert s[k] == s'[k - 1];
        assert s'[k - 1].title == Title(name, (c + 1) + (k - 1));
        assert (c + 1) + (k - 1) == c + k;
      }
    }
  }

  /** The screens hold the controllers in order, none lost or repeated. */
  lemma {:induction false} ChunksFlatten(es: seq<Ctrl>, name: string, c: nat)
    ensures Flatten(Chunks(es, name, c)) == es
    decreases |es|
  {
    if |es| > 4 {
      ChunksFlatten(es[4..], name, c + 1);
      var s := Chunks(es, name, c);
      assert s[1..] == Chunks(es[4..], name, c + 1);
      assert es[..4] + es[4..] == es;
    } else if es != [] {
      var s := Chunks(es, name, c);
      assert s[1..] == [];
    }
  }

  /** Screens continue where a whole number of full screens ends. */
  lemma {:induction false} ChunksAppend(a: seq<Ctrl>, b: seq<Ctrl>, name: string, c: nat, n: nat)
    requires |a| == 4 * n
    ensures Chunks(a + b, name, c) == Chunks(a, name, c) + Chunks(b, name, c + n)
    decreases |a|
  {
    if a == [] {
      assert a + b == b;
    } else if b == [] {
      assert a + b == a;
    } else {
      ChunksConcatHead(a, b, name, c);
      ChunksHead(a, name, c);
      ChunksAppend(a[4..], b, name, c + 1, n - 1);
      Regroup(Chunks(a + b, name, c), Chunks(a, name, c), [Screen(a[..4], 0, Title(name, c))],
              Chunks(a[4..] + b, name, c + 1), Chunks(a[4..], name, c + 1), Chunks(b, name, c + n));
    }
  }

  /** Screens regrouped: whole = head + (x + y) and part = head + x give whole = part + y. */
  lemma Regroup(whole: seq<Screen>, part: seq<Screen>, head: seq<Screen>, rest: seq<Screen>, x: seq<Screen>, y: seq<Screen>)
    requires whole == head + rest && rest == x + y && part == head + x
    ensures whole == part + y
  {
  }

  /** The first screen of four or more controllers holds the first four. */
  lemma ChunksHead(es: seq<Ctrl>, name: string, c: nat)
    requires |es| >= 4
    ensures Chunks(es, name, c) == [Screen(es[..4], 0, Title(name, c))] + Chunks(es[4..], name, c + 1)
  {
    if |es| == 4 {
      assert es[..4] == es && es[4..] == [];
    }
  }

  /** The first screen of a + b is that of a when a holds four or more. */
  lemma ChunksConcatHead(a: seq<Ctrl>, b: seq<Ctrl>, name: string, c: nat)
    requires |a| >= 4 && b != []
    ensures Chunks(a + b, name, c) == [Screen(a[..4], 0, Title(name, c))] + Chunks(a[4..] + b, name, c + 1)
  {
    ChunksHead(a + b, name, c);
    assert (a + b)[..4] == a[..4];
    assert (a + b)[4..] == a[4..] + b;
  }

  /** The screens of one plugin. */
  function PluginScreens(p: Plugin): seq<Screen>
  {
    Chunks(Entries(p.params), p.name, 1)
  }

  /** The screens of the plugins in ids, in dictionary order. */
  function AllScreens(ids: seq<string>, info: map<string, Plugin>): seq<Screen>
    requires forall k :: 0 <= k < |ids| ==> ids[k] in info
  {
    if ids == [] then []
    else AllScreens(ids[..|ids| - 1], info) + PluginScreens(info[ids[|ids| - 1]])
  }

  /** The controller list: the plugins' screens, or the defaults when there are none. */
  function CtrlList(ids: seq<string>, info: map<string, Plugin>, defaults: seq<Screen>): seq<Screen>
    requires forall k :: 0 <= k < |ids| ==> ids[k] in info
  {
    var s := AllScreens(ids, info);
    if s == [] then defaults else s
  }

  /** A screen holding one to four controllers, each with a MIDI CC. */
  predicate Filled(s: Screen)
  {
    1 <= |s.ctrls| <= 4 && forall j :: 0 <= j < |s.ctrls| ==> s.ctrls[j].cc > 0
  }

  /** Every controller made from the parameters has a MIDI CC. */
  lemma {:induction false} EntriesHaveCc(params: seq<Param>)
    ensures forall k :: 0 <= k < |Entries(params)| ==> Entries(params)[k].cc > 0
    decreases |params|
  {
    if params != [] {
      EntriesHaveCc(params[..|params| - 1]);
    }
  }

  /** A plugin's screens are all filled. */
  lemma PluginScreensFilled(p: Plugin)
    ensures forall k :: 0 <= k < |PluginScreens(p)| ==> Filled(PluginScreens(p)[k])
  {
    var es := Entries(p.params);
    EntriesHaveCc(p.params);
    ChunksSizes(es, p.name, 1);
    ChunksEntries(es, p.name, 1);
  }

  /** No generated screen is empty, none holds more than four controllers, and every
      controller on one has a MIDI CC. */
  lemma {:induction false} AllScreensFilled(ids: seq<string>, info: map<string, Plugin>)
    requires forall k :: 0 <= k < |ids| ==> ids[k] in info
    ensures forall k :: 0 <= k < |AllScreens(ids, info)| ==> Filled(AllScreens(ids, info)[k])
    decreases |ids|
  {
    if ids != [] {
      AllScreensFilled(ids[..|ids| - 1], info);
      PluginScreensFilled(info[ids[|ids| - 1]]);
    }
  }

  /** Controller j of screen k is controller 4k + j of those chunked. */
  lemma {:induction false} ChunkAt(es: seq<Ctrl>, name: string, c: nat, k: nat, j: nat)
    requires k < |Chunks(es, name, c)| && j < |Chunks(es, name, c)[k].ctrls|
    ensures 4 * k + j < |es| && Chunks(es, name, c)[k].ctrls[j] == es[4 * k + j]
    decreases |es|
  {
    var s := Chunks(es, name, c);
    if |es| <= 4 {
      assert s == [Screen(es, 0, Title(name, c))];
    } else if k == 0 {
      assert s[0].ctrls == es[..4];
    } else {
      var rest := Chunks(es[4..], name, c + 1);
      assert s[k] == rest[k - 1];
      ChunkAt(es[4..], name, c + 1, k - 1, j);
      assert es[4..][4 * (k - 1) + j] == es[4 * k + j];
    }
  }

  /** Every controller on a screen is one of the controllers chunked. */
  lemma ChunksEntries(es: seq<Ctrl>, name: string, c: nat)
    ensures forall k, j :: 0 <= k < |Chunks(es, name, c)| && 0 <= j < |Chunks(es, name, c)[k].ctrls| ==>
      Chunks(es, name, c)[k].ctrls[j] in es
  {
    var s := Chunks(es, name, c);
    forall k, j | 0 <= k < |s| && 0 <= j < |s[k].ctrls| ensures s[k].ctrls[j] in es {
      ChunkAt(es, name, c, k, j);
    }
  }

  // ---------------------------------------------------------------------------
  // The engine
  // ---------------------------------------------------------------------------

  /** The state of generate_ctrl_list part way through a plugin's k parameters: the
      full screens so far follow base, and the pending controllers number fewer than four. */
  ghost predicate Pending(p: Plugin, k: nat, base: seq<Screen>, list: seq<Screen>, done: seq<Ctrl>, paramSet: seq<Ctrl>, c: nat)
  {
    k <= |p.params| && c >= 1
    && Entries(p.params[..k]) == done + paramSet
    && |done| == 4 * (c - 1) && |paramSet| < 4
    && list == base + Chunks(done, p.name, 1)
  }

  /** At the end of the parameters, the pending controllers make the plugin's last
      screen. */
  lemma PendingDone(p: Plugin, base: seq<Screen>, list: seq<Screen>, done: seq<Ctrl>, paramSet: seq<Ctrl>, c: nat)
    requires Pending(p, |p.params|, base, list, done, paramSet, c)
    ensures list + (if |paramSet| >= 1 then [Screen(paramSet, 0, Title(p.name, c))] else []) == base + PluginScreens(p)
  {
    assert p.params[..|p.params|] == p.params;
    ChunksAppend(done, paramSet, p.name, 1, c - 1);
    if |paramSet| == 0 {
      assert done + paramSet == done;
    }
  }

  /** The engine's pedalboard state. */
  class Engine {
    var pluginIds: seq<string>
    var pluginInfo: map<string, Plugin>
    var ctrlList: seq<Screen>
    /** The controller screens used when a pedalboard maps no parameter. */
    const defaultCtrlList: seq<Screen>
    /** The engine's MIDI channel, written into every midi_map command. */
    var midiChan: nat
    /** Whether a snapshot path is set, in which case screens are not regenerated. */
    var snapshotSet: bool

    /** The plugin ids and the dictionary agree. */
    ghost predicate Valid()
      reads this
    {
      Indexed(pluginIds, pluginInfo)
    }

    constructor (defaults: seq<Screen>, chan: nat)
      ensures Valid() && pluginIds == [] && pluginInfo == map[] && ctrlList == ENGINE_CTRL_LIST
      ensures defaultCtrlList == defaults && midiChan == chan && !snapshotSet
    {
      pluginIds, pluginInfo, ctrlList := [], map[], ENGINE_CTRL_LIST;
      defaultCtrlList, midiChan, snapshotSet := defaults, chan, false;
    }

    /** mh_commands on the pedalboard's command lines: rebuilds the plugin table from
        scratch, returns the follow-up commands and, without a snapshot, regenerates the
        controller screens. */
    method MhCommands(lines: seq<Line>) returns (cmds: string)
      modifies this`pluginIds, this`pluginInfo, this`ctrlList
      ensures Valid()
      ensures var t := Steps(START, lines, midiChan);
        pluginIds == t.ids && pluginInfo == t.info && cmds == t.cmds
      ensures ctrlList == if snapshotSet then old(ctrlList) else CtrlList(pluginIds, pluginInfo, defaultCtrlList)
    {
      pluginIds, pluginInfo := [], map[];
      var midiCc: nat := 1;
      cmds := "";
      var i := 0;
      while i < |lines|
        invariant i <= |lines|
        invariant Table(pluginIds, pluginInfo, cmds, midiCc) == Steps(START, lines[..i], midiChan)
        invariant ctrlList == old(ctrlList)
      {
        assert lines[..i + 1][..i] == lines[..i];
        cmds, midiCc := ReadLine(lines[i], cmds, midiCc);
        i := i + 1;
      }
      assert lines[..i] == lines;
      StepsWf(START, lines, midiChan);
      if !snapshotSet {
        GenerateCtrlList();
      }
    }

    /** The body of the mh_commands loop for one line. */
    method ReadLine(line: Line, cmds: string, midiCc: nat) returns (cmds': string, midiCc': nat)
      modifies this`pluginIds, this`pluginInfo
      ensures Table(pluginIds, pluginInfo, cmds', midiCc')
        == Step(Table(old(pluginIds), old(pluginInfo), cmds, midiCc), line, midiChan)
    {
      cmds', midiCc' := cmds, midiCc;
      match line
      case Add(uri, id) =>
        if id !in pluginInfo {
          pluginIds := pluginIds + [id];
        }
        pluginInfo := pluginInfo[id := Plugin(PluginName(uri), [])];
      case ConnectMidiIn(port) =>
        cmds' := cmds + CaptureCmd(port);
      case Other =>
      case _ =>
        var id := line.id;
        var name := ParamName(line);
        if id in pluginInfo && line.value.Some? {
          var param := Param(Replace(name, '_', ' '), line.value.value, 0, 127, midiCc);
          pluginInfo := pluginInfo[id := pluginInfo[id].(params := pluginInfo[id].params + [param])];
          cmds' := cmds + MidiMap(id, name, midiChan, midiCc);
          midiCc' := midiCc + 1;
        }
    }

    /** generate_ctrl_list: the screens of every plugin in dictionary order, or the
        defaults when no parameter has a MIDI CC. */
    method GenerateCtrlList()
      requires Valid()
      modifies this`ctrlList
      ensures ctrlList == CtrlList(pluginIds, pluginInfo, defaultCtrlList)
    {
      ctrlList := [];
      var i := 0;
      while i < |pluginIds|
        invariant i <= |pluginIds|
        invariant ctrlList == AllScreens(pluginIds[..i], pluginInfo)
      {
        assert pluginIds[..i + 1][..i] == pluginIds[..i];
        AddPluginScreens(pluginInfo[pluginIds[i]]);
        i := i + 1;
      }
      assert pluginIds[..i] == pluginIds;
      if |ctrlList| == 0 {
        ctrlList := defaultCtrlList;
      }
    }

    /** The loop of generate_ctrl_list over one plugin's parameters: full screens are
        added as they fill, the remainder at the end. */
    method AddPluginScreens(p: Plugin)
      modifies this`ctrlList
      ensures ctrlList == old(ctrlList) + PluginScreens(p)
    {
      var c: nat := 1;
      var paramSet: seq<Ctrl> := [];
      ghost var done: seq<Ctrl> := [];
      var k := 0;
      while k < |p.params|
        invariant Pending(p, k, old(ctrlList), ctrlList, done, paramSet, c)
      {
        paramSet, c, done := TakeParam(p, k, paramSet, c, done, old(ctrlList));
        k := k + 1;
      }
      PendingDone(p, old(ctrlList), ctrlList, done, paramSet, c);
      if |paramSet| >= 1 {
        ctrlList := ctrlList + [Screen(paramSet, 0, Title(p.name, c))];
      }
    }

    /** One parameter of generate_ctrl_list's loop: a parameter with a MIDI CC adds its
        controller. */
    method TakeParam(p: Plugin, k: nat, paramSet: seq<Ctrl>, c: nat, ghost done: seq<Ctrl>, ghost base: seq<Screen>)
      returns (paramSet': seq<Ctrl>, c': nat, ghost done': seq<Ctrl>)
      requires k < |p.params| && Pending(p, k, base, ctrlList, done, paramSet, c)
      modifies this`ctrlList
      ensures Pending(p, k + 1, base, ctrlList, done', paramSet', c')
    {
      EntriesSnoc(p.params, k);
      var param := p.params[k];
      if param.midiCc > 0 {
        paramSet', c', done' := AddCtrl(Entry(param), p.name, paramSet, c, done, base);
      } else {
        paramSet', c', done' := paramSet, c, done;
      }
    }

    /** One controller of generate_ctrl_list's loop: it joins the pending screen, which
        is added as screen c once it holds four. */
    method AddCtrl(e: Ctrl, name: string, paramSet: seq<Ctrl>, c: nat, ghost done: seq<Ctrl>, ghost base: seq<Screen>)
      returns (paramSet': seq<Ctrl>, c': nat, ghost done': seq<Ctrl>)
      requires c >= 1 && |done| == 4 * (c - 1) && |paramSet| < 4
      requires ctrlList == base + Chunks(done, name, 1)
      modifies this`ctrlList
      ensures c' >= 1 && |done'| == 4 * (c' - 1) && |paramSet'| < 4
      ensures done' + paramSet' == done + paramSet + [e]
      ensures ctrlList == base + Chunks(done', name, 1)
    {
      paramSet' := paramSet + [e];
      c', done' := c, done;
      if |paramSet'| >= 4 {
        ChunksAppend(done, paramSet', name, 1, c - 1);
        ctrlList := ctrlList + [Screen(paramSet', 0, Title(name, c))];
        done' := done + paramSet';
        paramSet' := [];
        c' := c + 1;
      }
    }
  }
}
