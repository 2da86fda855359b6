/** The translator as the program keeps it: two records updated in place by the protocol handlers.
    Each handler is proved to take exactly the step that LockProtocol specifies. */
module LockSurfaces {
  import opened Options
  import opened SurfaceSizes
  import opened LockProtocol
  import opened LockSafety
  import DiffCommits

  /** The fields of `struct forward_surface` used by the translator. */
  class PluginSurface {
    var configured: bool
    var lastUsed: nat
    var lastAcked: Size
    var table: seq<SerialPair>
    var mapped: bool
    var committed: DiffCommits.SurfaceState

    constructor (serial: nat)
      ensures Fields() == NewPlugin(serial)
    {
      configured, lastUsed, lastAcked, table, mapped := false, serial, NO_SIZE, [], false;
      committed := DiffCommits.DEFAULT_STATE;
    }

    ghost function Fields(): Plugin
      reads this
    {
      Plugin(configured, lastUsed, lastAcked, table, mapped, committed)
    }
  }

  lemma PairAside(s: Lock, serial: nat)
    requires s.plugin.Some?
    ensures AddPair(s, serial, false).(hasNewer := true) == AddPair(s.(hasNewer := true), serial, false)
  {
    hide Bump;
  }

  /** forward_configure() never looks at has_newer_serial. */
  lemma FlagAside(s: Lock, first: bool, serial: nat)
    ensures ForwardConfigure(s, first, serial).(hasNewer := true)
            == ForwardConfigure(s.(hasNewer := true), first, serial)
  {
    hide AddPair;
    var t := s.(hasNewer := true);
    if first && s.size.Known() {
      assert ForwardConfigure(s, first, serial) == s.(first := serial, usedFirst := false);
    } else if s.size.Known() && s.plugin.Some? && s.plugin.value.configured {
      PairAside(s, serial);
      assert ForwardConfigure(t, first, serial) == AddPair(t, serial, false);
    } else {
      assert ForwardConfigure(t, first, serial) == t;
    }
  }

  /** The fields of `struct swaylock_surface` used by the translator; the ghost fields record what the
      upstream connection saw. */
  class LockSurface {
    var nested: bool
    var size: Size
    var newest: nat
    var hasNewer: bool
    var hasPending: bool
    var pendingSerial: nat
    var first: nat
    var usedFirst: bool
    var hasBuffer: bool
    var dirty: bool
    var frame: bool
    var plugin: PluginSurface?
    var clientSerial: nat
    ghost var received: map<nat, Size>
    ghost var acks: seq<nat>
    ghost var commits: seq<Commit>
    ghost var upstream: DiffCommits.Upstream
    ghost var buffer: Size
    ghost var erred: bool
    ghost var halted: bool

    ghost function Model(): Lock
      reads this, plugin
    {
      Lock(nested, size, newest, hasNewer, hasPending, pendingSerial, first, usedFirst, hasBuffer, dirty, frame,
           if plugin == null then None else Some(plugin.Fields()), clientSerial,
           received, acks, commits, upstream, buffer, erred, halted)
    }

    constructor ()
      ensures Model() == INIT
    {
      nested, size, newest, hasNewer, hasPending, pendingSerial := true, NO_SIZE, 0, false, false, 0;
      first, usedFirst, hasBuffer, dirty, frame, plugin := 0, false, false, false, false, null;
      clientSerial := FIRST_CLIENT_SERIAL;
      received, acks, commits, erred, halted := map[], [], [], false, false;
      upstream, buffer := DiffCommits.DEFAULT_UPSTREAM, NO_SIZE;
    }

    method SendAckConfigure(serial: nat)
      modifies this`acks
      ensures Model() == SendAck(old(Model()), serial)
    {
      acks := acks + [serial];
    }

    method CommitSurface()
      modifies this`commits
      ensures Model() == CommitUpstream(old(Model()))
    {
      hide ShownSize;
      commits := commits + [Commit(ShownSize(upstream, buffer), |acks|)];
    }

    method RenderSurface()
      modifies this
      ensures plugin == old(plugin) && Model() == Render(old(Model()))
    {
      if !size.Known() || !hasBuffer || !dirty || frame {
        return;
      }
      dirty := false;
      frame := true;
      CommitSurface();
    }

    method RenderFallbackSurface()
      modifies this
      ensures plugin == old(plugin) && Model() == RenderFallback(old(Model()))
    {
      if !size.Known() {
        halted := true;
        return;
      }
      hide CommitUpstream, FallbackState, Shown;
      AttachFallback();
      CommitSurface();
      HaveBuffer();
    }

    /** The fallback's buffer is attached at scale 1; viewport and transform stay as they are. */
    ghost method AttachFallback()
      modifies this`upstream, this`buffer
      ensures Model() == old(Model()).(upstream := FallbackState(old(upstream)), buffer := size)
    {
      upstream := FallbackState(upstream);
      buffer := size;
    }

    /** A protocol error: the client's surfaces are destroyed. */
    method PostError()
      modifies this
      ensures plugin == null && Model() == Disconnect(old(Model()))
    {
      plugin := null;
      erred := true;
    }

    method HaveBuffer()
      modifies this`hasBuffer
      ensures Model() == old(Model()).(hasBuffer := true)
    {
      hasBuffer := true;
    }

    method AddSerialPair(upstream: nat, localOnly: bool)
      requires plugin != null
      modifies this, plugin
      ensures plugin == old(plugin) && Model() == AddPair(old(Model()), upstream, localOnly)
    {
      var serial := clientSerial;
      clientSerial := Bump(clientSerial);
      plugin.table := plugin.table + [SerialPair(serial, upstream, size, localOnly)];
    }

    /** The nested server's half of a configure: forward_configure(), then has_newer_serial. */
    method ForwardToPlugin(firstConfigure: bool, serial: nat)
      modifies this, plugin
      ensures plugin == old(plugin)
      ensures Model() == ForwardConfigure(old(Model()).(hasNewer := true), firstConfigure, serial)
    {
      FlagAside(Model(), firstConfigure, serial);
      hide ForwardConfigure;
      PassConfigure(firstConfigure, serial);
      RaiseNewer();
    }

    /** `forward_configure()`. */
    method PassConfigure(firstConfigure: bool, serial: nat)
      modifies this, plugin
      ensures plugin == old(plugin)
      ensures Model() == ForwardConfigure(old(Model()), firstConfigure, serial)
    {
      if firstConfigure && size.Known() {
        first := serial;
        usedFirst := false;
      } else if size.Known() {
        if plugin != null {
          if plugin.configured {
            AddSerialPair(serial, false);
          }
        }
      }
    }

    method RaiseNewer()
      modifies this`hasNewer
      ensures Model() == old(Model()).(hasNewer := true)
    {
      hasNewer := true;
    }

    /** Without a nested server, a configure is acked and answered on the spot. */
    method AnswerConfigure(serial: nat)
      modifies this
      ensures plugin == old(plugin)
      ensures Model() == RenderFallback(SendAck(old(Model()), serial).(hasNewer := false))
    {
      hide RenderFallback;
      SendAckConfigure(serial);
      hasNewer := false;
      RenderFallbackSurface();
    }

    method MarkAndRender()
      modifies this
      ensures plugin == old(plugin) && Model() == Render(old(Model()).(dirty := true))
    {
      hide Render;
      dirty := true;
      RenderSurface();
    }

    method RecordConfigure(serial: nat, newSize: Size)
      modifies this`size, this`newest, this`received
      ensures Model() == Receive(old(Model()), serial, newSize)
    {
      size := newSize;
      newest := serial;
      received := received[serial := newSize];
    }

    method Configure(serial: nat, newSize: Size)
      modifies this, plugin
      ensures plugin == old(plugin) && Model() == HandleConfigure(old(Model()), serial, newSize)
    {
      hide Render, RenderFallback, ForwardConfigure, SendAck, Receive;
      var firstConfigure := !size.Known();
      RecordConfigure(serial, newSize);
      if nested {
        ForwardToPlugin(firstConfigure, serial);
      } else {
        AnswerConfigure(serial);
      }
      MarkAndRender();
    }

    method GetLayerSurface()
      modifies this
      ensures Model() == GetLayer(old(Model()))
      ensures plugin != null ==> fresh(plugin)
    {
      if plugin != null {
        PostError();
        return;
      }
      plugin := new PluginSurface(clientSerial);
      clientSerial := Bump(clientSerial);
    }

    /** The table search of zwlr_layer_surface_ack_configure(). */
    method FindEntry(serial: nat) returns (i: nat)
      requires plugin != null
      ensures i == Find(plugin.table, serial)
    {
      i := 0;
      while i < |plugin.table| && plugin.table[i].plugin != serial
        invariant i <= |plugin.table|
        invariant forall k :: 0 <= k < i ==> plugin.table[k].plugin != serial
      {
        i := i + 1;
      }
      FindAt(plugin.table, serial, i);
    }

    /** Once a serial is used, it and all older ones are discarded in place. */
    method UseEntry(i: nat, serial: nat)
      requires plugin != null && i < |plugin.table|
      modifies plugin
      ensures plugin.Fields() == UsePair(old(plugin.Fields()), i, serial)
    {
      plugin.lastUsed := serial;
      plugin.lastAcked := plugin.table[i].size;
      plugin.table := plugin.table[i + 1..];
    }

    method HoldBack(serial: nat)
      modifies this`hasPending, this`pendingSerial
      ensures Model() == HoldAck(old(Model()), serial)
    {
      hasPending := true;
      pendingSerial := serial;
    }

    /** A serial that was never handed out. */
    method RefuseAck(serial: nat)
      requires plugin != null
      modifies this, plugin
      ensures plugin == null && Model() == Disconnect(old(Model()))
    {
      plugin.lastUsed := serial;
      PostError();
    }

    /** Local serials were made up here, so they are not passed on. */
    method TakeEntry(i: nat, serial: nat)
      requires plugin != null && i < |plugin.table|
      modifies this`hasPending, this`pendingSerial, plugin
      ensures var p := old(plugin.Fields());
              var t := old(Model()).(plugin := Some(UsePair(p, i, serial)));
              Model() == if p.table[i].localOnly then t else HoldAck(t, p.table[i].upstream)
    {
      hide UsePair, HoldAck;
      var entry := plugin.table[i];
      UseEntry(i, serial);
      if !entry.localOnly {
        HoldBack(entry.upstream);
      }
    }

    method AckConfigure(serial: nat)
      requires plugin != null
      modifies this, plugin
      ensures plugin == old(plugin) || plugin == null
      ensures Model() == HandleAck(old(Model()), serial)
    {
      hide Find, UsePair, HandleAck, HoldAck, Disconnect;
      AckCases(Model(), serial);
      if serial == plugin.lastUsed {
        return;
      }
      var i := FindEntry(serial);
      if i == |plugin.table| {
        RefuseAck(serial);
      } else {
        TakeEntry(i, serial);
      }
    }

    method AnswerFirstCommit()
      requires plugin != null
      modifies this, plugin
      ensures plugin == old(plugin) && Model() == AnswerInitial(old(Model()))
    {
      hide AddPair;
      if !usedFirst {
        AddSerialPair(first, false);
        usedFirst := true;
      } else if hasNewer {
        AddSerialPair(newest, false);
      } else {
        AddSerialPair(0, true);
      }
    }

    method InitialSurfaceCommit(attachment: Option<View>)
      requires plugin != null
      modifies this, plugin
      ensures plugin == old(plugin) && Model() == InitialCommit(old(Model()), attachment)
    {
      hide AnswerInitial;
      AnswerFirstCommit();
      plugin.configured := true;
      if attachment.Some? {
        halted := true;
      }
    }

    method FlushPendingAck()
      modifies this
      ensures plugin == old(plugin) && Model() == FlushAck(old(Model()))
    {
      if hasPending {
        SendAckConfigure(pendingSerial);
        ReleaseAck();
      }
    }

    method ReleaseAck()
      modifies this`hasPending, this`hasNewer
      ensures Model() == old(Model()).(hasPending := false, hasNewer := old(hasNewer) && pendingSerial != newest)
    {
      hasPending := false;
      if pendingSerial == newest {
        hasNewer := false;
      }
    }

    method CommitContent()
      modifies this
      ensures plugin == old(plugin)
      ensures Model() == CommitUpstream(FlushAck(old(Model()).(hasBuffer := true)))
    {
      hide FlushAck, CommitUpstream;
      hasBuffer := true;
      FlushPendingAck();
      CommitSurface();
    }

    /** `apply_pending_surface_updates()` as far as the size goes: the differences are sent and the buffer is
        attached, whatever comes of the check. */
    method SendUpdates(v: View)
      requires plugin != null
      modifies this`upstream, this`buffer, plugin
      ensures plugin.lastAcked == old(plugin.lastAcked) && Model() == ApplyUpdates(old(Model()), v)
    {
      hide Updated;
      upstream := Updated(upstream, plugin.committed, v.state);
      buffer := v.buffer;
      plugin.mapped := true;
      plugin.committed := v.state;
    }

    method ApplyCommit(v: View)
      requires plugin != null
      modifies this, plugin
      ensures plugin == old(plugin) || plugin == null
      ensures Model() == ContentCommit(old(Model()), v)
    {
      hide ApplyUpdates, FlushAck, CommitUpstream, CheckedSize, Disconnect;
      SendUpdates(v);
      match CheckedSize(v) {
        case BadSize =>
          PostError();
        case DivisionByZero =>
          halted := true;
        case Fits(actual) =>
          if actual == plugin.lastAcked {
            CommitContent();
          } else {
            PostError();
          }
      }
    }

    method SurfaceCommit(attachment: Option<View>)
      modifies this, plugin
      ensures plugin == old(plugin) || plugin == null
      ensures Model() == HandleCommit(old(Model()), attachment)
    {
      hide InitialCommit, ContentCommit, Disconnect;
      if plugin == null {
        return;
      }
      if !plugin.configured {
        InitialSurfaceCommit(attachment);
      } else if attachment.None? {
        if plugin.mapped { PostError(); }
      } else {
        ApplyCommit(attachment.value);
      }
    }

    method SetupClientlessMode()
      modifies this
      ensures plugin == old(plugin) && Model() == SetupClientless(old(Model()))
    {
      hide Render, RenderFallback, SendAck, Size.Known;
      if !nested {
        return;
      }
      nested := false;
      if !size.Known() {
        return;
      }
      if !hasBuffer {
        if hasNewer {
          AnswerConfigure(newest);
        } else {
          RenderFallbackSurface();
        }
      }
      MarkAndRender();
    }
  }

  lemma {:induction false} FindAt(table: seq<SerialPair>, serial: nat, i: nat)
    requires i <= |table|
    requires forall k :: 0 <= k < i ==> table[k].plugin != serial
    requires i < |table| ==> table[i].plugin == serial
    ensures Find(table, serial) == i
  {
  }
}
