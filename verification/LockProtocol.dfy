/** The configure/ack translator between one ext_session_lock_surface_v1 (upstream) and the layer
    surface a wallpaper client draws on it (plugin side), as a step function over the fields of
    `struct swaylock_surface` and `struct forward_surface`.  The trace fields record what
    crossed the upstream connection: `received` the size carried by each configure serial, `acks` and
    `commits` what was sent, in order. */
module LockProtocol {
  import opened Options
  import opened SurfaceSizes
  import DiffCommits

  const SERIAL_LIMIT: nat := 0x1_0000_0000
  const FIRST_CLIENT_SERIAL: nat := 100000

  /** `struct serial_pair`. */
  datatype SerialPair = SerialPair(plugin: nat, upstream: nat, size: Size, localOnly: bool)

  /** The part of `struct forward_surface` the translator uses; `mapped` says that
      `committed.attachment` is not NULL. */
  datatype Plugin = Plugin(configured: bool, lastUsed: nat, lastAcked: Size, table: seq<SerialPair>, mapped: bool,
                           committed: DiffCommits.SurfaceState)

  /** A layer surface that has just been created. */
  function NewPlugin(serial: nat): Plugin {
    Plugin(false, serial, NO_SIZE, [], false, DiffCommits.DEFAULT_STATE)
  }

  /** One upstream commit: the surface size the compositor derives, if it allows the surface's state, and
      how many acks preceded it. */
  datatype Commit = Commit(size: Option<Size>, acked: nat)

  datatype Lock = Lock(
    nested: bool,
    size: Size,
    newest: nat,
    hasNewer: bool,
    hasPending: bool,
    pendingSerial: nat,
    first: nat,
    usedFirst: bool,
    hasBuffer: bool,
    dirty: bool,
    frame: bool,
    plugin: Option<Plugin>,
    clientSerial: nat,
    received: map<nat, Size>,
    acks: seq<nat>,
    commits: seq<Commit>,
    upstream: DiffCommits.Upstream,
    buffer: Size,
    erred: bool,
    halted: bool)

  /** The state of a surface before its first configure, while a nested client is starting. */
  const INIT := Lock(true, NO_SIZE, 0, false, false, 0, 0, false, false, false, false, None,
                     FIRST_CLIENT_SERIAL, map[], [], [], DiffCommits.DEFAULT_UPSTREAM, NO_SIZE, false, false)

  /** The index of the first table entry for a plugin serial, or the table's length. */
  function Find(table: seq<SerialPair>, serial: nat): (i: nat)
    ensures i <= |table|
    ensures forall k :: 0 <= k < i ==> table[k].plugin != serial
    ensures i < |table| ==> table[i].plugin == serial
  {
    if table == [] then 0
    else if table[0].plugin == serial then 0
    else 1 + Find(table[1..], serial)
  }

  datatype Event =
    | Configure(serial: nat, size: Size)
    | GetLayerSurface
    | PluginCommit(attachment: Option<View>)
    | PluginAck(serial: nat)
    | SurfaceDestroyed
    | ReplaceClient
    | OtherOutputSerial
    | GoClientless
    | Damage
    | FrameDone

  // ----- the handlers

  function SendAck(s: Lock, serial: nat): Lock {
    s.(acks := s.acks + [serial])
  }

  /** The size of the upstream surface, were it committed now. */
  function Shown(s: Lock): Option<Size> {
    ShownSize(s.upstream, s.buffer)
  }

  function CommitUpstream(s: Lock): Lock {
    s.(commits := s.commits + [Commit(Shown(s), |s.acks|)])
  }

  /** A protocol error ends the client: nothing it sent later is dispatched, its surfaces are destroyed. */
  function Disconnect(s: Lock): Lock {
    s.(plugin := None, erred := true)
  }

  function Bump(serial: nat): nat {
    (serial + 1) % SERIAL_LIMIT
  }

  /** `render()`: an injected commit of whatever buffer is attached. */
  function Render(s: Lock): Lock {
    if !s.size.Known() || !s.hasBuffer || !s.dirty || s.frame then s
    else CommitUpstream(s.(dirty := false, frame := true))
  }

  /** `render_fallback_surface()`; a zero-sized one attaches an uninitialised buffer pointer. */
  function RenderFallback(s: Lock): Lock {
    if !s.size.Known() then s.(halted := true)
    else CommitUpstream(s.(upstream := FallbackState(s.upstream), buffer := s.size, hasBuffer := true))
  }

  function AddPair(s: Lock, upstream: nat, localOnly: bool): Lock
    requires s.plugin.Some?
  {
    var p := s.plugin.value;
    var pair := SerialPair(s.clientSerial, upstream, s.size, localOnly);
    s.(plugin := Some(p.(table := p.table + [pair])), clientSerial := Bump(s.clientSerial))
  }

  /** `forward_configure()`. */
  function ForwardConfigure(s: Lock, first: bool, serial: nat): Lock {
    if first && s.size.Known() then s.(first := serial, usedFirst := false)
    else if s.size.Known() && s.plugin.Some? && s.plugin.value.configured then AddPair(s, serial, false)
    else s
  }

  function Receive(s: Lock, serial: nat, size: Size): Lock {
    s.(size := size, newest := serial, received := s.received[serial := size])
  }

  /** `ext_session_lock_surface_v1_handle_configure()`. */
  function HandleConfigure(s: Lock, serial: nat, size: Size): Lock {
    var s1 := Receive(s, serial, size);
    var s2 :=
      // forward_configure() never looks at has_newer_serial, so the flag may be raised first
      if s.nested then ForwardConfigure(s1.(hasNewer := true), !s.size.Known(), serial)
      else RenderFallback(SendAck(s1, serial).(hasNewer := false));
    Render(s2.(dirty := true))
  }

  /** `wlr_layer_shell_get_layer_surface()`. */
  function GetLayer(s: Lock): Lock {
    if s.plugin.Some? then Disconnect(s)
    else s.(plugin := Some(NewPlugin(s.clientSerial)), clientSerial := Bump(s.clientSerial))
  }

  /** The configure that answers a first commit: paired with the first serial, or with the newest one if it
      is unacked, or kept local. */
  function AnswerInitial(s: Lock): Lock
    requires s.plugin.Some?
    ensures AnswerInitial(s).plugin.Some?
  {
    if !s.usedFirst then AddPair(s, s.first, false).(usedFirst := true)
    else if s.hasNewer then AddPair(s, s.newest, false)
    else AddPair(s, 0, true)
  }

  /** The first commit of a plugin surface: it is answered by a configure and goes no further. */
  function InitialCommit(s: Lock, attachment: Option<View>): Lock
    requires s.plugin.Some?
  {
    var s1 := AnswerInitial(s);
    var s2 := s1.(plugin := Some(s1.plugin.value.(configured := true)));
    if attachment.Some? then s2.(halted := true) else s2
  }

  /** A commit's differences and buffer, sent upstream before its size is checked. */
  function ApplyUpdates(s: Lock, v: View): Lock
    requires s.plugin.Some?
  {
    var p := s.plugin.value;
    s.(plugin := Some(p.(mapped := true, committed := v.state)),
       upstream := Updated(s.upstream, p.committed, v.state), buffer := v.buffer)
  }

  /** A commit on a configured layer surface that has a buffer. */
  function ContentCommit(s: Lock, v: View): Lock
    requires s.plugin.Some?
  {
    var s1 := ApplyUpdates(s, v);
    match CheckedSize(v)
    case BadSize => Disconnect(s1)
    case DivisionByZero => s1.(halted := true)
    case Fits(size) =>
      if size != s.plugin.value.lastAcked then Disconnect(s1)
      else CommitUpstream(FlushAck(s1.(hasBuffer := true)))
  }

  /** `nested_surface_commit()` for a surface with the layer role. */
  function HandleCommit(s: Lock, attachment: Option<View>): Lock {
    if s.plugin.None? then s
    else if !s.plugin.value.configured then InitialCommit(s, attachment)
    else if attachment.None? then (if s.plugin.value.mapped then Disconnect(s) else s)
    else ContentCommit(s, attachment.value)
  }

  /** The delayed upstream ack, sent right before the commit. */
  function FlushAck(s: Lock): Lock {
    if !s.hasPending then s
    else SendAck(s, s.pendingSerial).(hasPending := false,
                                      hasNewer := s.hasNewer && s.pendingSerial != s.newest)
  }

  /** Once a serial is used, it and all older ones are discarded. */
  function UsePair(p: Plugin, i: nat, serial: nat): Plugin
    requires i < |p.table|
  {
    p.(lastUsed := serial, lastAcked := p.table[i].size, table := p.table[i + 1..])
  }

  function HoldAck(s: Lock, upstream: nat): Lock {
    s.(hasPending := true, pendingSerial := upstream)
  }

  /** `zwlr_layer_surface_ack_configure()`. */
  function HandleAck(s: Lock, serial: nat): Lock {
    if s.plugin.None? || serial == s.plugin.value.lastUsed then s
    else
      var p := s.plugin.value;
      var i := Find(p.table, serial);
      if i == |p.table| then Disconnect(s)
      else
        var s1 := s.(plugin := Some(UsePair(p, i, serial)));
        if p.table[i].localOnly then s1 else HoldAck(s1, p.table[i].upstream)
  }

  /** `setup_clientless_mode()`. */
  function SetupClientless(s: Lock): Lock {
    if !s.nested then s
    else if !s.size.Known() then s.(nested := false)
    else
      var s1 := s.(nested := false);
      var s2 := if s.hasBuffer then s1
                else if s.hasNewer then RenderFallback(SendAck(s1, s.newest).(hasNewer := false))
                else RenderFallback(s1);
      Render(s2.(dirty := true))
  }

  function Step(s: Lock, e: Event): Lock {
    if s.halted then s
    else match e
      case Configure(serial, size) => HandleConfigure(s, serial, size)
      case GoClientless => SetupClientless(s)
      case Damage => Render(s.(dirty := true))
      case FrameDone => Render(s.(frame := false))
      case GetLayerSurface => if s.nested && !s.erred then GetLayer(s) else s
      case PluginCommit(attachment) => if s.nested && !s.erred then HandleCommit(s, attachment) else s
      case PluginAck(serial) => if s.nested && !s.erred then HandleAck(s, serial) else s
      case SurfaceDestroyed => if s.nested then s.(plugin := None) else s
      case ReplaceClient =>
        if s.nested then s.(plugin := None, clientSerial := FIRST_CLIENT_SERIAL, erred := false) else s
      case OtherOutputSerial => if s.nested then s.(clientSerial := Bump(s.clientSerial)) else s
  }

  function Run(s: Lock, es: seq<Event>): Lock
    decreases |es|
  {
    if es == [] then s else Run(Step(s, es[0]), es[1..])
  }

  // ----- what the environment promises, and the two events that lose track of the first serial

  /** The compositor numbers its configures upwards. */
  predicate Legal(s: Lock, e: Event) {
    match e
    case Configure(serial, _) => s.newest !in s.received || s.newest < serial
    case _ => true
  }

  predicate HasConfiguredPlugin(s: Lock) {
    s.plugin.Some? && s.plugin.value.configured
  }

  /** A zero-sized configure under a configured plugin surface, or a plugin's initial commit before
      the size is known. */
  predicate LosesFirst(s: Lock, e: Event) {
    s.nested && !s.halted && !s.erred &&
    match e
    case Configure(_, size) => !size.Known() && HasConfiguredPlugin(s)
    case PluginCommit(None) => !s.size.Known() && s.plugin.Some? && !s.plugin.value.configured
    case _ => false
  }

  predicate RunOk(s: Lock, es: seq<Event>)
    decreases |es|
  {
    es == [] || (Legal(s, es[0]) && !LosesFirst(s, es[0]) && RunOk(Step(s, es[0]), es[1..]))
  }

  /** Short enough not to bring a plugin serial round again. */
  predicate Short(es: seq<Event>) {
    FIRST_CLIENT_SERIAL + |es| + 1 < SERIAL_LIMIT
  }

  /** No client breaks the protocol in the run. */
  predicate ErrorFree(s: Lock, es: seq<Event>)
    decreases |es|
  {
    !s.erred && !s.halted && (es == [] || ErrorFree(Step(s, es[0]), es[1..]))
  }

  // ----- reading the trace

  predicate Increasing(a: seq<nat>) {
    forall i, j :: 0 <= i < j < |a| ==> a[i] < a[j]
  }

  function LastAck(acks: seq<nat>): int {
    if acks == [] then -1 else acks[|acks| - 1]
  }
}
