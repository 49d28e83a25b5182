/** The Command pattern: actions on a TV-like receiver wrapped as command
    values, a macro that runs several in order, and a remote with named slots. */
module Commands {
  import opened Common

  /** The two settings a receiver holds. */
  datatype Settings = Settings(volume: int, channel: int)

  const DefaultSettings := Settings(10, 1)

  const PowerOnLine := "Receiver: power ON"
  const PowerOffLine := "Receiver: power OFF"

  function VolumeLine(v: int): string {
    "Receiver: volume set to " + IntToString(v)
  }

  function ChannelLine(c: int): string {
    "Receiver: channel set to " + IntToString(c)
  }

  class Receiver {
    var volume: int
    var channel: int

    constructor ()
      ensures Current() == DefaultSettings
    {
      volume := 10;
      channel := 1;
    }

    function Current(): Settings
      reads this
    {
      Settings(volume, channel)
    }

    method TurnOn(out: Console)
      modifies out
      ensures out.lines == old(out.lines) + [PowerOnLine]
    {
      out.Log(PowerOnLine);
    }

    method TurnOff(out: Console)
      modifies out
      ensures out.lines == old(out.lines) + [PowerOffLine]
    {
      out.Log(PowerOffLine);
    }

    /** Changes the volume only, then reports the stored value. */
    method SetVolume(v: int, out: Console)
      modifies this, out
      ensures volume == v && channel == old(channel)
      ensures out.lines == old(out.lines) + [VolumeLine(v)]
    {
      volume := v;
      out.Log("Receiver: volume set to " + IntToString(volume));
    }

    /** Changes the channel only, then reports the stored value. */
    method SetChannel(c: int, out: Console)
      modifies this, out
      ensures channel == c && volume == old(volume)
      ensures out.lines == old(out.lines) + [ChannelLine(c)]
    {
      channel := c;
      out.Log("Receiver: channel set to " + IntToString(channel));
    }
  }

  /** The closed family of commands; each concrete command keeps its receiver. */
  datatype Command =
    | PowerOnCommand(r: Receiver)
    | PowerOffCommand(r: Receiver)
    | SetVolumeCommand(r: Receiver, volume: int)
    | SetChannelCommand(r: Receiver, channel: int)
    | MacroCommand(commands: seq<Command>)

  /** Every receiver a command may act on. */
  function Receivers(c: Command): set<Receiver> {
    match c
    case MacroCommand(cs) => ReceiversOf(cs)
    case _ => {c.r}
  }

  function ReceiversOf(cs: seq<Command>): set<Receiver> {
    if cs == [] then {} else ReceiversOf(cs[..|cs| - 1]) + Receivers(cs[|cs| - 1])
  }

  /** Reference semantics: the settings of receiver `x` after `c` runs from `s`. */
  function Effect(c: Command, x: Receiver, s: Settings): Settings {
    match c
    case PowerOnCommand(_) => s
    case PowerOffCommand(_) => s
    case SetVolumeCommand(r, v) => if r == x then s.(volume := v) else s
    case SetChannelCommand(r, ch) => if r == x then s.(channel := ch) else s
    case MacroCommand(cs) => EffectOf(cs, x, s)
  }

  /** The commands of a list run one after the other, first to last. */
  function EffectOf(cs: seq<Command>, x: Receiver, s: Settings): Settings {
    if cs == [] then s else Effect(cs[|cs| - 1], x, EffectOf(cs[..|cs| - 1], x, s))
  }

  /** Reference semantics: the lines `c` prints. */
  function Output(c: Command): seq<string> {
    match c
    case PowerOnCommand(_) => [PowerOnLine]
    case PowerOffCommand(_) => [PowerOffLine]
    case SetVolumeCommand(_, v) => [VolumeLine(v)]
    case SetChannelCommand(_, ch) => [ChannelLine(ch)]
    case MacroCommand(cs) => OutputOf(cs)
  }

  function OutputOf(cs: seq<Command>): seq<string> {
    if cs == [] then [] else OutputOf(cs[..|cs| - 1]) + Output(cs[|cs| - 1])
  }

  lemma {:induction false} ReceiversOfContains(cs: seq<Command>, i: nat)
    requires i < |cs|
    ensures Receivers(cs[i]) <= ReceiversOf(cs)
    decreases |cs|
  {
    if i < |cs| - 1 {
      ReceiversOfContains(cs[..|cs| - 1], i);
    }
  }

  lemma PrefixStep<T>(cs: seq<T>, i: nat)
    requires i < |cs|
    ensures cs[..i + 1][..i] == cs[..i] && cs[..i + 1][i] == cs[i]
  {
  }

  /** `execute` of each concrete command; a macro runs its commands in list order,
      each exactly once. */
  method Execute(c: Command, out: Console)
    modifies Receivers(c), out
    ensures forall x :: x in Receivers(c) && old(allocated(x)) ==> x.Current() == Effect(c, x, old(x.Current()))
    ensures out.lines == old(out.lines) + Output(c)
    decreases c
  {
    match c
    case PowerOnCommand(r) => r.TurnOn(out);
    case PowerOffCommand(r) => r.TurnOff(out);
    case SetVolumeCommand(r, v) => r.SetVolume(v, out);
    case SetChannelCommand(r, ch) => r.SetChannel(ch, out);
    case MacroCommand(cs) =>
      for i := 0 to |cs|
        invariant forall x :: x in Receivers(c) && old(allocated(x)) ==> x.Current() == EffectOf(cs[..i], x, old(x.Current()))
        invariant out.lines == old(out.lines) + OutputOf(cs[..i])
      {
        ReceiversOfContains(cs, i);
        ghost var before := out.lines;
        Execute(cs[i], out);
        PrefixStep(cs, i);
        forall x | x in Receivers(c) && old(allocated(x)) && x !in Receivers(cs[i])
          ensures Effect(cs[i], x, EffectOf(cs[..i], x, old(x.Current()))) == EffectOf(cs[..i], x, old(x.Current()))
        {
          EffectElsewhere(cs[i], x, EffectOf(cs[..i], x, old(x.Current())));
        }
        assert out.lines == before + Output(cs[i]);
      }
      assert cs[..|cs|] == cs;
  }

  /** A command leaves alone every receiver it does not hold. */
  lemma {:induction false} EffectElsewhere(c: Command, x: Receiver, s: Settings)
    requires x !in Receivers(c)
    ensures Effect(c, x, s) == s
    decreases c
  {
    match c
    case MacroCommand(cs) => EffectOfElsewhere(cs, x, s);
    case _ =>
  }

  lemma {:induction false} EffectOfElsewhere(cs: seq<Command>, x: Receiver, s: Settings)
    requires x !in ReceiversOf(cs)
    ensures EffectOf(cs, x, s) == s
    decreases cs
  {
    if cs != [] {
      EffectOfElsewhere(cs[..|cs| - 1], x, s);
      EffectElsewhere(cs[|cs| - 1], x, s);
    }
  }

  /** Running two lists back to back is running their concatenation. */
  lemma {:induction false} EffectOfAppend(cs: seq<Command>, ds: seq<Command>, x: Receiver, s: Settings)
    ensures EffectOf(cs + ds, x, s) == EffectOf(ds, x, EffectOf(cs, x, s))
    decreases |ds|
  {
    if ds == [] {
      assert cs + ds == cs;
    } else {
      var last := |ds| - 1;
      assert (cs + ds)[..|cs + ds| - 1] == cs + ds[..last];
      assert (cs + ds)[|cs + ds| - 1] == ds[last];
      EffectOfAppend(cs, ds[..last], x, s);
    }
  }

  /** The lines of a concatenation are the lines of its parts, in order. */
  lemma {:induction false} OutputOfAppend(cs: seq<Command>, ds: seq<Command>)
    ensures OutputOf(cs + ds) == OutputOf(cs) + OutputOf(ds)
    decreases |ds|
  {
    if ds == [] {
      assert cs + ds == cs;
    } else {
      var last := |ds| - 1;
      assert (cs + ds)[..|cs + ds| - 1] == cs + ds[..last];
      assert (cs + ds)[|cs + ds| - 1] == ds[last];
      OutputOfAppend(cs, ds[..last]);
    }
  }

  /** A volume command changes only the volume of its receiver, a channel command
      only the channel, and the power commands neither. */
  lemma SingleCommandEffects(r: Receiver, s: Settings, v: int)
    ensures Effect(SetVolumeCommand(r, v), r, s) == Settings(v, s.channel)
    ensures Effect(SetChannelCommand(r, v), r, s) == Settings(s.volume, v)
    ensures Effect(PowerOnCommand(r), r, s) == s && Effect(PowerOffCommand(r), r, s) == s
  {
  }

  /** An empty macro does nothing and prints nothing. */
  lemma EmptyMacro(x: Receiver, s: Settings)
    ensures Effect(MacroCommand([]), x, s) == s && Output(MacroCommand([])) == []
  {
  }

  /** A macro of three commands, unfolded. */
  lemma ThreeCommands(a: Command, b: Command, c: Command, x: Receiver, s: Settings)
    ensures ReceiversOf([a, b, c]) == Receivers(a) + Receivers(b) + Receivers(c)
    ensures EffectOf([a, b, c], x, s) == Effect(c, x, Effect(b, x, Effect(a, x, s)))
    ensures OutputOf([a, b, c]) == Output(a) + Output(b) + Output(c)
  {
    assert [a, b, c][..2] == [a, b] && [a, b][..1] == [a] && [a][..0] == [];
    assert ReceiversOf([a]) == Receivers(a);
    assert ReceiversOf([a, b]) == Receivers(a) + Receivers(b);
    assert EffectOf([a], x, s) == Effect(a, x, s);
    assert EffectOf([a, b], x, s) == Effect(b, x, Effect(a, x, s));
    assert OutputOf([a]) == Output(a);
    assert OutputOf([a, b]) == Output(a) + Output(b);
  }

  /** The "watch movie" macro on a new receiver leaves channel 99 and volume 7. */
  lemma WatchMovieEffect(r: Receiver)
    ensures Effect(MacroCommand([PowerOnCommand(r), SetChannelCommand(r, 99), SetVolumeCommand(r, 7)]),
                   r, DefaultSettings) == Settings(7, 99)
  {
    ThreeCommands(PowerOnCommand(r), SetChannelCommand(r, 99), SetVolumeCommand(r, 7), r, DefaultSettings);
  }

  function NoCommandLine(name: string): string {
    "No command assigned to slot '" + name + "'"
  }

  function ExecutingLine(name: string): string {
    "Invoker: executing '" + name + "'"
  }

  /** A remote with named slots. */
  class RemoteInvoker {
    var slots: map<string, Command>

    constructor ()
      ensures slots == map[]
    {
      slots := map[];
    }

    /** Binds or overwrites exactly the named slot. */
    method SetCommand(name: string, command: Command)
      modifies this
      ensures slots == old(slots)[name := command]
      ensures forall other :: other != name ==> Lookup(other) == old(Lookup(other))
    {
      slots := slots[name := command];
    }

    function Lookup(name: string): Option<Command>
      reads this
    {
      if name in slots then Some(slots[name]) else None
    }

    /** Reports an empty slot and changes nothing, or announces the slot and runs
        its command once. */
    method Press(name: string, out: Console)
      modifies out, if name in slots then Receivers(slots[name]) else {}
      ensures name !in slots ==> out.lines == old(out.lines) + [NoCommandLine(name)]
      ensures name in slots ==>
                && out.lines == old(out.lines) + [ExecutingLine(name)] + Output(slots[name])
                && forall x :: x in Receivers(slots[name]) && old(allocated(x)) ==>
                     x.Current() == Effect(slots[name], x, old(x.Current()))
    {
      if name !in slots {
        out.Log("No command assigned to slot '" + name + "'");
        return;
      }
      var cmd := slots[name];
      out.Log("Invoker: executing '" + name + "'");
      Execute(cmd, out);
    }
  }

  /** The lines the demo prints. */
  const DemoLines: seq<string> := [
    "Command pattern demo (richer):",
    "Invoker: executing 'power_on'",
    "Receiver: power ON",
    "Invoker: executing 'set_volume_7'",
    "Receiver: volume set to 7",
    "Invoker: executing 'watch_movie'",
    "Receiver: power ON",
    "Receiver: channel set to 99",
    "Receiver: volume set to 7",
    "Invoker: executing 'power_off'",
    "Receiver: power OFF",
    "No command assigned to slot 'unknown_slot'"
  ]

  /** The demo's lines, as the functions above render them. */
  lemma DemoLineTexts()
    ensures DemoLines == ["Command pattern demo (richer):",
                          ExecutingLine("power_on"), PowerOnLine,
                          ExecutingLine("set_volume_7"), VolumeLine(7),
                          ExecutingLine("watch_movie"), PowerOnLine, ChannelLine(99), VolumeLine(7),
                          ExecutingLine("power_off"), PowerOffLine,
                          NoCommandLine("unknown_slot")]
  {
    ReceiverTexts();
    InvokerTexts();
  }

  lemma ReceiverTexts()
    ensures VolumeLine(7) == "Receiver: volume set to 7"
    ensures ChannelLine(99) == "Receiver: channel set to 99"
  {
    assert IntToString(7) == "7" && IntToString(99) == "99";
  }

  lemma InvokerTexts()
    ensures ExecutingLine("power_on") == "Invoker: executing 'power_on'"
    ensures ExecutingLine("set_volume_7") == "Invoker: executing 'set_volume_7'"
    ensures ExecutingLine("watch_movie") == "Invoker: executing 'watch_movie'"
    ensures ExecutingLine("power_off") == "Invoker: executing 'power_off'"
    ensures NoCommandLine("unknown_slot") == "No command assigned to slot 'unknown_slot'"
  {
  }

  /** The demo's slots: four commands on one receiver, one of them a macro. */
  function DemoSlots(receiver: Receiver): map<string, Command> {
    map[
      "power_on" := PowerOnCommand(receiver),
      "power_off" := PowerOffCommand(receiver),
      "watch_movie" := MacroCommand([PowerOnCommand(receiver), SetChannelCommand(receiver, 99),
                                     SetVolumeCommand(receiver, 7)]),
      "set_volume_7" := SetVolumeCommand(receiver, 7)]
  }

  /** The demo's wiring: four commands bound to their slots. */
  method DemoRemote(receiver: Receiver) returns (remote: RemoteInvoker)
    ensures fresh(remote)
    ensures remote.slots == DemoSlots(receiver)
  {
    var on := PowerOnCommand(receiver);
    var off := PowerOffCommand(receiver);
    var vol7 := SetVolumeCommand(receiver, 7);
    var ch99 := SetChannelCommand(receiver, 99);
    var watchMovie := MacroCommand([on, ch99, vol7]);
    remote := new RemoteInvoker();
    remote.SetCommand("power_on", on);
    remote.SetCommand("power_off", off);
    remote.SetCommand("watch_movie", watchMovie);
    remote.SetCommand("set_volume_7", vol7);
  }

  /** The demo's first two presses: power on, then volume 7. */
  method DemoFirstPresses(remote: RemoteInvoker, receiver: Receiver, out: Console)
    requires remote.slots == DemoSlots(receiver) && receiver.Current() == DefaultSettings
    modifies receiver, out
    ensures receiver.Current() == Settings(7, 1)
    ensures out.lines == old(out.lines) + [ExecutingLine("power_on"), PowerOnLine,
                                           ExecutingLine("set_volume_7"), VolumeLine(7)]
  {
    ghost var l0 := out.lines;
    remote.Press("power_on", out);
    assert receiver.Current() == DefaultSettings;
    ghost var l1 := out.lines;
    assert l1 == l0 + [ExecutingLine("power_on"), PowerOnLine];
    remote.Press("set_volume_7", out);
  }

  /** The demo's remaining presses: the macro, power off, then a slot nobody bound. */
  method DemoLaterPresses(remote: RemoteInvoker, receiver: Receiver, out: Console)
    requires remote.slots == DemoSlots(receiver) && receiver.Current() == Settings(7, 1)
    modifies receiver, out
    ensures receiver.Current() == Settings(7, 99)
    ensures out.lines == old(out.lines) + [ExecutingLine("watch_movie"), PowerOnLine, ChannelLine(99),
                                           VolumeLine(7), ExecutingLine("power_off"), PowerOffLine,
                                           NoCommandLine("unknown_slot")]
  {
    ThreeCommands(PowerOnCommand(receiver), SetChannelCommand(receiver, 99),
                  SetVolumeCommand(receiver, 7), receiver, Settings(7, 1));
    ghost var l0 := out.lines;
    remote.Press("watch_movie", out);
    assert receiver.Current() == Settings(7, 99);
    ghost var l1 := out.lines;
    assert l1 == l0 + [ExecutingLine("watch_movie"), PowerOnLine, ChannelLine(99), VolumeLine(7)];
    remote.Press("power_off", out);
    assert receiver.Current() == Settings(7, 99);
    ghost var l2 := out.lines;
    assert l2 == l1 + [ExecutingLine("power_off"), PowerOffLine];
    remote.Press("unknown_slot", out);
  }

  /** The demo: four bound slots pressed in turn, then an unbound one. */
  method DemoCommand(out: Console) returns (finalSettings: Settings)
    modifies out
    ensures out.lines == old(out.lines) + DemoLines
    ensures finalSettings == Settings(7, 99)
  {
    out.Log("Command pattern demo (richer):");
    var receiver := new Receiver();
    var remote := DemoRemote(receiver);
    DemoFirstPresses(remote, receiver, out);
    DemoLaterPresses(remote, receiver, out);
    DemoLineTexts();
    finalSettings := receiver.Current();
  }
}
