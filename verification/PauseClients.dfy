/** Pausing as the program does it: outputs and client records updated in place, with the signals that
    `kill` delivers recorded beside each record. Every method is proved to take the step of Pausing. */
module PauseClients {
  import opened Clocks
  import opened Pausing

  /** The parts of `struct swaylock_bg_client` that pausing uses. */
  class BgClient {
    const pid: int
    var paused: bool
    ghost var sent: seq<Signal>

    constructor (pid: int)
      ensures this.pid == pid && View() == Group(pid, false, [])
    {
      this.pid, paused, sent := pid, false, [];
    }

    ghost function View(): Group
      reads this
    {
      Group(pid, paused, sent)
    }

    /** `set_client_paused()`; `killed` is whether the call to `kill` would succeed. */
    method SetClientPaused(paused: bool, killed: bool)
      modifies this
      ensures View() == SetPaused(old(View()), paused, killed)
    {
      if pid <= 0 || this.paused == paused {
        return;
      }
      if !killed {
        return;
      }
      sent := sent + [if paused then Stop else Continue];
      this.paused := paused;
    }
  }

  /** The parts of `struct swaylock_surface` that pausing uses. */
  class WatchedOutput {
    var client: BgClient?
    var framePending: bool
    var framePendingSince: Timespec
    var frameLastDone: Timespec

    constructor ()
      ensures client == null && View() == UNSEEN
    {
      client, framePending, framePendingSince, frameLastDone := null, false, ZERO, ZERO;
    }

    function View(): Watch
      reads this
    {
      Watch(framePending, framePendingSince, frameLastDone)
    }

    /** The clock half of a commit that carries frame callbacks. */
    method RequestUpstreamCallback(now: Timespec)
      modifies this
      ensures View() == NoteFrame(old(View()), now) && client == old(client)
    {
      if !framePending {
        framePending := true;
        framePendingSince := now;
      }
    }
  }

  class Server {
    var mainClient: BgClient?
    var clients: seq<BgClient>
    var surfaces: seq<WatchedOutput>

    constructor ()
      ensures mainClient == null && clients == [] && surfaces == []
    {
      mainClient, clients, surfaces := null, [], [];
    }

    ghost predicate Valid()
      reads this
    {
      forall i, j :: 0 <= i < j < |clients| ==> clients[i] != clients[j]
    }

    function ClientFor(surface: WatchedOutput): BgClient?
      reads this, surface
    {
      if surface.client != null then surface.client else mainClient
    }

    /** The completion of an upstream callback: `bg_frame_handle_done()` up to the nested callbacks. */
    method FrameDone(surface: WatchedOutput, now: Timespec, killed: bool)
      modifies surface, ClientFor(surface)
      ensures surface.View() == NoteDone(old(surface.View()), now) && surface.client == old(surface.client)
      ensures var c := ClientFor(surface);
              c == old(ClientFor(surface)) && (c != null ==> c.View() == SetPaused(old(ClientFor(surface).View()), false, killed))
    {
      surface.framePending := false;
      surface.frameLastDone := now;
      var c := ClientFor(surface);
      if c != null && c.paused {
        c.SetClientPaused(false, killed);
      }
    }

    /** Whether some output of `c` is stale and none visible; `clock[i]` is the reading made for output `i`. */
    ghost predicate FoundHidden(c: BgClient, clock: seq<Timespec>, timeout: int)
      reads this, surfaces
      requires |clock| == |surfaces|
    {
      && (exists i :: 0 <= i < |surfaces| && ClientFor(surfaces[i]) == c && Stale(surfaces[i].View(), clock[i], timeout))
      && (forall i :: 0 <= i < |surfaces| && ClientFor(surfaces[i]) == c ==>
            !Visible(surfaces[i].View(), clock[i], timeout))
    }

    method ClientIsHidden(c: BgClient, clock: seq<Timespec>, timeout: int) returns (hidden: bool)
      requires |clock| == |surfaces|
      ensures hidden <==> FoundHidden(c, clock, timeout)
    {
      var anyStale := false;
      for i := 0 to |surfaces|
        invariant anyStale <==>
          exists k :: 0 <= k < i && ClientFor(surfaces[k]) == c && Stale(surfaces[k].View(), clock[k], timeout)
        invariant forall k :: 0 <= k < i && ClientFor(surfaces[k]) == c ==>
                    !Visible(surfaces[k].View(), clock[k], timeout)
      {
        var surface := surfaces[i];
        if ClientFor(surface) != c {
          continue;
        }
        if surface.framePending {
          if MsSince(clock[i], surface.framePendingSince) >= timeout {
            anyStale := true;
          } else {
            assert Visible(surfaces[i].View(), clock[i], timeout);
            return false;
          }
        } else if surface.frameLastDone.sec != 0 && MsSince(clock[i], surface.frameLastDone) < timeout {
          assert Visible(surfaces[i].View(), clock[i], timeout);
          return false;
        }
      }
      return anyStale;
    }

    /** `hidden_check_timeout()`; `killed[i]` is whether client `i` can be signalled. */
    method HiddenCheck(clock: seq<Timespec>, timeout: int, killed: seq<bool>)
      requires Valid() && |clock| == |surfaces| && |killed| == |clients|
      modifies clients
      ensures forall i :: 0 <= i < |clients| ==>
                clients[i].View() == SetPaused(old(clients[i].View()), old(FoundHidden(clients[i], clock, timeout)), killed[i])
    {
      for i := 0 to |clients|
        invariant forall k :: 0 <= k < i ==>
                    clients[k].View() == SetPaused(old(clients[k].View()), old(FoundHidden(clients[k], clock, timeout)), killed[k])
        invariant forall k :: i <= k < |clients| ==> clients[k].View() == old(clients[k].View())
      {
        var hidden := ClientIsHidden(clients[i], clock, timeout);
        assert hidden == old(FoundHidden(clients[i], clock, timeout));
        clients[i].SetClientPaused(hidden, killed[i]);
      }
    }

    method ResumeAllClients(killed: seq<bool>)
      requires Valid() && |killed| == |clients|
      modifies clients
      ensures forall i :: 0 <= i < |clients| ==> clients[i].View() == SetPaused(old(clients[i].View()), false, killed[i])
    {
      for i := 0 to |clients|
        invariant forall k :: 0 <= k < i ==> clients[k].View() == SetPaused(old(clients[k].View()), false, killed[k])
        invariant forall k :: i <= k < |clients| ==> clients[k].View() == old(clients[k].View())
      {
        clients[i].SetClientPaused(false, killed[i]);
      }
    }

    /** `cleanup_client()` for the client at position `i` of the list, serving `output` or all outputs. */
    method CleanupClient(i: nat, output: WatchedOutput?, killed: bool)
      requires Valid() && i < |clients|
      requires if output != null then output.client == clients[i] else mainClient == clients[i]
      modifies this, clients[i], output
      ensures Valid() && surfaces == old(surfaces)
      ensures old(clients[i]).View() == SetPaused(old(clients[i].View()), false, killed)
      ensures clients == old(clients)[..i] + old(clients)[i + 1..]
      ensures if output != null then output.client == null && mainClient == old(mainClient) else mainClient == null
    {
      clients[i].SetClientPaused(false, killed);
      clients := clients[..i] + clients[i + 1..];
      if output != null {
        output.client := null;
      } else {
        mainClient := null;
      }
    }
  }
}
