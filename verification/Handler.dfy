/** One SSH connection: `ClientHandler` of handler.rs, between the SSH library and a session's hub. */
module Handler {
  import opened Wrappers
  import opened Sequences
  import opened Hub
  import Sessions = SessionMgr
  import Eol
  import Names

  // What the handler asks the SSH library to do on its channel.
  datatype Effect = Accepted | Full | ExitStatus(code: nat) | Close

  // The forward task of a channel; it reads one receiver of the hub's broadcast channel, which lives until
  // the task is aborted or ends.
  class Task {
    const hub: Hub
    const receiver: nat

    constructor (hub: Hub, receiver: nat)
      ensures this.hub == hub && this.receiver == receiver
    {
      this.hub, this.receiver := hub, receiver;
    }
  }

  // The command line of an exec request, closed by a line end unless it is empty.
  function ExecInput(data: Chunk): Option<Chunk> {
    if data == [] then None
    else if data[|data| - 1] == Eol.LF then Some(data)
    else if data[|data| - 1] == Eol.CR then Some(data + [Eol.LF])
    else Some(data + Eol.CRLF)
  }

  lemma {:induction false} LinesClosed(s: Chunk)
    requires s != [] && s[|s| - 1] != Eol.LF && s[|s| - 1] != Eol.CR
    ensures Eol.Lines(s + Eol.CRLF) == Eol.Lines(s) + [[]]
    decreases |s|
  {
    var t := s + Eol.CRLF;
    if |s| == 1 {
      assert t[1..] == Eol.CRLF && Eol.CRLF[2..] == [];
      assert Eol.Lines(Eol.CRLF) == [[]] + Eol.Lines([]);
      assert s[1..] == [];
      assert Eol.Lines(s) == Eol.Glue(s[0], [[]]);
      assert Eol.Lines(t) == Eol.Glue(s[0], [[], []]);
    } else {
      var n := if Eol.CrlfAhead(s) then 2 else 1;
      assert n < |s|;
      assert t[n..] == s[n..] + Eol.CRLF;
      assert s[n..][|s| - n - 1] == s[|s| - 1];
      LinesClosed(s[n..]);
      assert [[]] + (Eol.Lines(s[n..]) + [[]]) == [[]] + Eol.Lines(s[n..]) + [[]];
      var r := Eol.Lines(s[n..]);
      assert Eol.Glue(s[0], r + [[]]) == Eol.Glue(s[0], r) + [[]];
    }
  }

  lemma {:induction false} LinesOfCr(s: Chunk)
    requires s != [] && s[|s| - 1] == Eol.CR
    ensures Eol.Lines(s + [Eol.LF]) == Eol.Lines(s)
    decreases |s|
  {
    var t := s + [Eol.LF];
    if |s| == 1 {
      assert t[2..] == [] && s[1..] == [];
    } else {
      var n := if Eol.CrlfAhead(s) then 2 else 1;
      assert n < |s|;
      assert t[n..] == s[n..] + [Eol.LF];
      assert s[n..][|s| - n - 1] == s[|s| - 1];
      LinesOfCr(s[n..]);
    }
  }

  // The upstream sees the lines of the command as they were sent, the last one closed, and no extra line: an
  // LF (10) at its end stays, a CR (13) gets its LF, anything else gets CR LF.
  lemma ExecKeepsLines(data: Chunk)
    requires data != []
    ensures var sent := ExecInput(data).value;
            && data <= sent && sent[|sent| - 1] == Eol.LF
            && sent == data + (if data[|data| - 1] == 10 then [] else if data[|data| - 1] == 13 then [10] else [13, 10])
            && Eol.Lines(sent) == Eol.Lines(data) +
                 if data[|data| - 1] == Eol.LF || data[|data| - 1] == Eol.CR then [] else [[]]
  {
    if data[|data| - 1] == Eol.CR {
      LinesOfCr(data);
    } else if data[|data| - 1] != Eol.LF {
      LinesClosed(data);
    }
  }

  // The name and password given are those of this session, the name up to case.
  predicate MatchesUser(e: Sessions.SessionEntry, user: string, password: Chunk) {
    Names.Lower(e.name) == Names.Lower(user) && e.password == password
  }

  function OptSet<T>(current: Option<T>): set<T> {
    if current.Some? then {current.value} else {}
  }

  // What a handler has taken over its life: given back, or lost when another request took its place.
  datatype Books<T> = Books(taken: set<T>, back: set<T>, lost: set<T>)

  // Everything taken is in exactly one place: given back, lost, or in the handler's hands.
  predicate Balanced<T>(b: Books<T>, current: Option<T>) {
    && b.taken == b.back + b.lost + OptSet(current)
    && b.back !! b.lost && b.back !! OptSet(current) && b.lost !! OptSet(current)
  }

  // The handler takes `x`, and loses what it held.
  function Take<T>(b: Books<T>, current: Option<T>, x: T): Books<T> {
    Books(b.taken + {x}, b.back, b.lost + OptSet(current))
  }

  // The handler gives back what it holds.
  function Return<T>(b: Books<T>, current: Option<T>): Books<T> {
    b.(back := b.back + OptSet(current))
  }

  predicate AllBack<T>(b: Books<T>) {
    b.taken == b.back
  }

  lemma TakeBalanced<T>(b: Books<T>, current: Option<T>, x: T)
    requires Balanced(b, current) && x !in b.taken
    ensures Balanced(Take(b, current, x), Some(x))
  {
  }

  lemma ReturnBalanced<T>(b: Books<T>, current: Option<T>)
    requires Balanced(b, current)
    ensures Balanced(Return(b, current), None)
    ensures AllBack(Return(b, current)) <==> b.lost == {}
  {
  }

  class ClientHandler {
    const maxClients: nat
    const peer: string
    var entry: Option<Sessions.SessionEntry>
    var forwardTask: Option<Task>
    var clientRec: Option<ClientRecord>
    var isExec: bool
    var effects: seq<Effect>
    ghost var records: Books<ClientRecord>  // the records it has attached, and detached
    ghost var tasks: Books<Task>            // the forward tasks it has started, and aborted

    ghost predicate Valid()
      reads this
    {
      && Balanced(records, clientRec) && Balanced(tasks, forwardTask)
      && (clientRec.Some? ==> entry.Some?)
      && (forwardTask.Some? ==> entry.Some? && forwardTask.value.hub == entry.value.hub)
    }

    // The session objects the handler works on once it is authenticated.
    function Shared(): set<object>
      reads this
    {
      if entry.Some? then {entry.value.hub, entry.value.clients} else {}
    }

    constructor (maxClients: nat, peer: string)
      ensures Valid() && entry.None? && clientRec.None? && forwardTask.None? && !isExec
      ensures effects == [] && records == Books({}, {}, {}) && tasks == Books({}, {}, {})
      ensures this.maxClients == maxClients && this.peer == peer
    {
      this.maxClients, this.peer := maxClients, peer;
      entry, forwardTask, clientRec, isExec, effects := None, None, None, false, [];
      records, tasks := Books({}, {}, {}), Books({}, {}, {});
    }

    // A record for the channel; one the handler still held is lost to it.
    method AttachRecord(exec: bool)
      requires Valid() && entry.Some? && entry.value.clients.Valid()
      modifies this`clientRec, this`isExec, this`records, entry.value.clients
      ensures Valid() && entry.value.clients.Valid() && isExec == exec
      ensures clientRec.Some? && fresh(clientRec.value) && clientRec.value.bytesIn == 0
      ensures clientRec.value.id !in old(entry.value.clients.clients)
      ensures records == Take(old(records), old(clientRec), clientRec.value)
      ensures entry.value.clients.clients == old(entry.value.clients.clients)[clientRec.value.id := clientRec.value]
    {
      var rec := entry.value.clients.Attach(peer);
      TakeBalanced(records, clientRec, rec);
      records := Take(records, clientRec, rec);
      clientRec := Some(rec);
      isExec := exec;
    }

    // The initial input of an exec request, counted whether or not the queue takes it.
    method SendInitial(initial: Option<Chunk>, w: Wait)
      requires entry.Some? && clientRec.Some?
      requires entry.value.hub.Valid() && (initial.Some? ==> entry.value.hub.Completes(w))
      modifies entry.value.hub`open, entry.value.hub`fanIn, clientRec.value`bytesIn
      ensures entry.value.hub.Valid()
      ensures entry.value.hub.open == (old(entry.value.hub.open) && (initial.Some? ==> !w.ended))
      ensures entry.value.hub.fanIn ==
                if initial.None? then old(entry.value.hub.fanIn)
                else if entry.value.hub.open then old(entry.value.hub.fanIn)[w.taken..] + [initial.value]
                else []
      ensures clientRec.value.bytesIn == old(clientRec.value.bytesIn) + if initial.Some? then |initial.value| else 0
    {
      if initial.Some? {
        var _ := entry.value.hub.SendInput(initial.value, w);
        clientRec.value.bytesIn := clientRec.value.bytesIn + |initial.value|;
      }
    }

    method HoldTask(task: Task)
      requires Valid() && task !in tasks.taken && entry.Some? && task.hub == entry.value.hub
      modifies this`forwardTask, this`tasks
      ensures Valid() && forwardTask == Some(task) && tasks == Take(old(tasks), old(forwardTask), task)
    {
      TakeBalanced(tasks, forwardTask, task);
      tasks := Take(tasks, forwardTask, task);
      forwardTask := Some(task);
    }

    // A forward task for the channel; one the handler still held runs on, and keeps its receiver.
    method StartForwarding()
      requires Valid() && entry.Some? && entry.value.hub.Valid()
      modifies this`forwardTask, this`tasks, entry.value.hub`receivers, entry.value.hub`nextReceiver
      ensures Valid() && entry.value.hub.Valid()
      ensures forwardTask.Some? && fresh(forwardTask.value) && forwardTask.value.hub == entry.value.hub
      ensures tasks == Take(old(tasks), old(forwardTask), forwardTask.value)
      ensures forwardTask.value.receiver !in old(entry.value.hub.receivers)
      ensures entry.value.hub.receivers == old(entry.value.hub.receivers) + {forwardTask.value.receiver}
    {
      var receiver := entry.value.hub.SubscribeOutput();
      var task := new Task(entry.value.hub, receiver);
      HoldTask(task);
    }

    // An accepted request.
    method Admit(initial: Option<Chunk>, exec: bool, w: Wait)
      requires Valid() && entry.Some? && entry.value.hub.Valid() && entry.value.clients.Valid()
      requires initial.Some? ==> entry.value.hub.Completes(w)
      modifies this`clientRec, this`isExec, this`forwardTask, this`records, this`tasks
      modifies entry.value.hub, entry.value.clients
      ensures Valid() && entry == old(entry) && isExec == exec
      ensures clientRec.Some? && fresh(clientRec.value)
      ensures records == Take(old(records), old(clientRec), clientRec.value)
      ensures forwardTask.Some? && forwardTask.value.hub == entry.value.hub
      ensures tasks == Take(old(tasks), old(forwardTask), forwardTask.value)
      ensures entry.value.clients.Valid()
      ensures clientRec.value.id !in old(entry.value.clients.clients)
      ensures entry.value.clients.clients == old(entry.value.clients.clients)[clientRec.value.id := clientRec.value]
      ensures clientRec.value.bytesIn == if initial.Some? then |initial.value| else 0
      ensures var hub := entry.value.hub;
              && hub.Valid() && hub.open == (old(entry.value.hub.open) && (initial.Some? ==> !w.ended))
              && hub.fanIn == (if initial.None? then old(entry.value.hub.fanIn)
                               else if hub.open then old(entry.value.hub.fanIn)[w.taken..] + [initial.value] else [])
              && forwardTask.value.receiver !in old(entry.value.hub.receivers)
              && hub.receivers == old(entry.value.hub.receivers) + {forwardTask.value.receiver}
    {
      AttachRecord(exec);
      SendInitial(initial, w);
      StartForwarding();
    }

    // `shell_request` and `exec_request` after it has prepared the input.
    method StartShellOrExec(initial: Option<Chunk>, exec: bool, w: Wait)
      requires Valid()
      requires entry.Some? ==> entry.value.hub.Valid() && entry.value.clients.Valid()
      requires entry.Some? && initial.Some? ==> entry.value.hub.Completes(w)
      modifies this, Shared()
      ensures Valid() && entry == old(entry)
      ensures entry.None? ==>
                && effects == old(effects) + [Close] && clientRec == old(clientRec) && forwardTask == old(forwardTask)
                && records == old(records) && tasks == old(tasks)
      ensures entry.Some? ==>
                var hub, clients := entry.value.hub, entry.value.clients;
                var full := old(entry.value.hub.SubscriberCount()) >= maxClients;
                && hub.Valid() && clients.Valid()
                && (full ==>
                      && effects == old(effects) + [Full, Close]
                      && clientRec == old(clientRec) && forwardTask == old(forwardTask)
                      && records == old(records) && tasks == old(tasks)
                      && unchanged(hub) && unchanged(clients))
                && (!full ==>
                      && effects == old(effects) + [Accepted]
                      && isExec == exec
                      && clientRec.Some? && fresh(clientRec.value)
                      && records == Take(old(records), old(clientRec), clientRec.value)
                      && clientRec.value.id !in old(entry.value.clients.clients)
                      && clients.clients == old(entry.value.clients.clients)[clientRec.value.id := clientRec.value]
                      && clientRec.value.bytesIn == (if initial.Some? then |initial.value| else 0)
                      && hub.open == (old(entry.value.hub.open) && (initial.Some? ==> !w.ended))
                      && hub.fanIn == (if initial.None? then old(entry.value.hub.fanIn)
                                       else if hub.open then old(entry.value.hub.fanIn)[w.taken..] + [initial.value]
                                       else [])
                      && forwardTask.Some? && forwardTask.value.hub == hub
                      && tasks == Take(old(tasks), old(forwardTask), forwardTask.value)
                      && forwardTask.value.receiver !in old(entry.value.hub.receivers)
                      && hub.receivers == old(entry.value.hub.receivers) + {forwardTask.value.receiver}
                      && hub.SubscriberCount() <= maxClients)
    {
      if entry.None? {
        effects := effects + [Close];
      } else if entry.value.hub.SubscriberCount() >= maxClients {
        effects := effects + [Full, Close];
      } else {
        effects := effects + [Accepted];
        Admit(initial, exec, w);
      }
    }

    method ExecRequest(data: Chunk, w: Wait)
      requires Valid()
      requires entry.Some? ==> entry.value.hub.Valid() && entry.value.clients.Valid() && entry.value.hub.Completes(w)
      modifies this, Shared()
      ensures Valid() && entry == old(entry)
      ensures entry.Some? && (old(entry.value.hub.SubscriberCount()) >= maxClients || data == []) ==>
                entry.value.hub.fanIn == old(entry.value.hub.fanIn)
      ensures entry.Some? && old(entry.value.hub.SubscriberCount()) < maxClients && data != [] ==>
                && entry.value.hub.open == (old(entry.value.hub.open) && !w.ended)
                && entry.value.hub.fanIn ==
                     if entry.value.hub.open then old(entry.value.hub.fanIn)[w.taken..] + [ExecInput(data).value]
                     else []
      ensures entry.Some? && old(entry.value.hub.SubscriberCount()) < maxClients ==>
                && isExec && effects == old(effects) + [Accepted]
                && clientRec.Some? && fresh(clientRec.value)
                && records == Take(old(records), old(clientRec), clientRec.value)
                && forwardTask.Some? && tasks == Take(old(tasks), old(forwardTask), forwardTask.value)
                && clientRec.value.bytesIn == (if data == [] then 0 else |ExecInput(data).value|)
    {
      var initial: Option<Chunk> := None;
      if data != [] {
        var v := data;
        if v[|v| - 1] != Eol.LF {
          if v[|v| - 1] != Eol.CR {
            v := v + [Eol.CR];
          }
          v := v + [Eol.LF];
        }
        initial := Some(v);
        assert data + [Eol.CR] + [Eol.LF] == data + Eol.CRLF;
      }
      StartShellOrExec(initial, true, w);
    }

    // Every attempt is answered, also one after a success; no channel is open before authentication ends.
    method AuthPassword(mgr: Sessions.SessionMgr, user: string, password: Chunk) returns (accepted: bool)
      requires Valid() && mgr.Valid() && clientRec.None? && forwardTask.None?
      modifies this`entry
      ensures Valid()
      ensures accepted <==> exists e :: e in mgr.inner.Values && MatchesUser(e, user, password)
      ensures accepted ==> entry.Some? && entry.value in mgr.inner.Values && MatchesUser(entry.value, user, password)
      ensures !accepted ==> entry == old(entry)
    {
      var found := mgr.Authenticate(user, password);
      accepted := found.Some?;
      if accepted {
        entry := found;
      }
    }

    // Input reaches the upstream also from a handler that has no record (it was refused, or detached), and
    // is counted to the record also when the session has ended and the send fails.
    method Data(data: Chunk, w: Wait)
      requires Valid()
      requires entry.Some? ==> entry.value.hub.Valid() && entry.value.hub.Completes(w)
      modifies Shared(), if clientRec.Some? then {clientRec.value} else {}
      ensures Valid() && unchanged(this)
      ensures entry.Some? ==>
                var hub := entry.value.hub;
                && hub.Valid() && hub.open == (old(entry.value.hub.open) && !w.ended)
                && hub.fanIn == (if hub.open then old(entry.value.hub.fanIn)[w.taken..] + [data] else [])
                && hub.receivers == old(entry.value.hub.receivers)
                && unchanged(entry.value.clients)
      ensures entry.Some? && clientRec.Some? ==> clientRec.value.bytesIn == old(clientRec.value.bytesIn) + |data|
      ensures clientRec.Some? ==> clientRec.value.bytesOut == old(clientRec.value.bytesOut)
    {
      if entry.Some? {
        var _ := entry.value.hub.SendInput(data, w);
        if clientRec.Some? {
          clientRec.value.bytesIn := clientRec.value.bytesIn + |data|;
        }
      }
    }

    // Abort the forward task, which frees its receiver.
    method AbortTask()
      requires Valid() && (entry.Some? ==> entry.value.hub.Valid())
      modifies this`forwardTask, this`tasks, if entry.Some? then {entry.value.hub} else {}
      ensures Valid() && forwardTask.None? && tasks == Return(old(tasks), old(forwardTask))
      ensures AllBack(tasks) <==> tasks.lost == {}
      ensures entry.Some? ==>
                && entry.value.hub.Valid() && entry.value.hub.fanIn == old(entry.value.hub.fanIn)
                && entry.value.hub.receivers == old(entry.value.hub.receivers) -
                     (if old(forwardTask).Some? then {old(forwardTask).value.receiver} else {})
    {
      ReturnBalanced(tasks, forwardTask);
      tasks := Return(tasks, forwardTask);
      if forwardTask.Some? {
        forwardTask.value.hub.DropReceiver(forwardTask.value.receiver);
        forwardTask := None;
      }
    }

    // Abort the forward task and detach the record, whichever is still there.
    method Release()
      requires Valid()
      requires entry.Some? ==> entry.value.hub.Valid() && entry.value.clients.Valid()
      modifies this, Shared()
      ensures Valid() && entry == old(entry) && isExec == old(isExec) && effects == old(effects)
      ensures forwardTask.None? && tasks == Return(old(tasks), old(forwardTask))
      ensures clientRec.None? && records == Return(old(records), old(clientRec))
      ensures AllBack(records) <==> records.lost == {}
      ensures AllBack(tasks) <==> tasks.lost == {}
      ensures entry.Some? ==>
                && entry.value.hub.Valid() && entry.value.clients.Valid()
                && entry.value.hub.fanIn == old(entry.value.hub.fanIn)
                && entry.value.hub.receivers == old(entry.value.hub.receivers) -
                     (if old(forwardTask).Some? then {old(forwardTask).value.receiver} else {})
                && entry.value.clients.clients == old(entry.value.clients.clients) -
                     (if old(clientRec).Some? then {old(clientRec).value.id} else {})
    {
      AbortTask();
      ReturnBalanced(records, clientRec);
      records := Return(records, clientRec);
      if clientRec.Some? {
        var rec := clientRec.value;
        clientRec := None;
        entry.value.clients.Detach(rec.id);
      }
    }

    method ChannelEof()
      requires Valid()
      requires entry.Some? ==> entry.value.hub.Valid() && entry.value.clients.Valid()
      modifies this, Shared()
      ensures Valid() && entry == old(entry) && isExec == old(isExec)
      ensures !isExec ==>
                unchanged(this) && (entry.Some? ==> unchanged(entry.value.hub) && unchanged(entry.value.clients))
      ensures isExec ==>
                && forwardTask.None? && tasks == Return(old(tasks), old(forwardTask))
                && clientRec.None? && records == Return(old(records), old(clientRec))
                && effects == old(effects) + [ExitStatus(0), Close]
                && (AllBack(records) <==> records.lost == {}) && (AllBack(tasks) <==> tasks.lost == {})
      ensures entry.Some? ==> entry.value.hub.Valid() && entry.value.clients.Valid()
      ensures entry.Some? && isExec ==>
                && entry.value.hub.fanIn == old(entry.value.hub.fanIn)
                && entry.value.hub.receivers == old(entry.value.hub.receivers) -
                     (if old(forwardTask).Some? then {old(forwardTask).value.receiver} else {})
                && entry.value.clients.clients == old(entry.value.clients.clients) -
                     (if old(clientRec).Some? then {old(clientRec).value.id} else {})
    {
      if isExec {
        Release();
        effects := effects + [ExitStatus(0), Close];
      }
    }

    // After it the handler holds nothing. Every record it ever attached has been detached, and every forward
    // task it ever started aborted, exactly when no request was accepted while it held one; each at most
    // once. After a ChannelEof that already released, it changes nothing.
    method ChannelClose()
      requires Valid()
      requires entry.Some? ==> entry.value.hub.Valid() && entry.value.clients.Valid()
      modifies this, Shared()
      ensures Valid() && entry == old(entry) && isExec == old(isExec) && effects == old(effects)
      ensures forwardTask.None? && tasks == Return(old(tasks), old(forwardTask))
      ensures clientRec.None? && records == Return(old(records), old(clientRec))
      ensures old(records.back) !! OptSet(old(clientRec)) && old(tasks.back) !! OptSet(old(forwardTask))
      ensures AllBack(records) <==> records.lost == {}
      ensures AllBack(tasks) <==> tasks.lost == {}
      ensures entry.Some? ==>
                && entry.value.hub.Valid() && entry.value.clients.Valid()
                && entry.value.hub.fanIn == old(entry.value.hub.fanIn)
                && entry.value.hub.receivers == old(entry.value.hub.receivers) -
                     (if old(forwardTask).Some? then {old(forwardTask).value.receiver} else {})
                && entry.value.clients.clients == old(entry.value.clients.clients) -
                     (if old(clientRec).Some? then {old(clientRec).value.id} else {})
    {
      Release();
    }

    // A handler dropped without a ChannelClose aborts its forward task, but leaves its record attached: all
    // tasks have been aborted exactly when none was lost, all records detached exactly when it held none as
    // well.
    method Drop()
      requires Valid()
      requires entry.Some? ==> entry.value.hub.Valid()
      modifies this`forwardTask, this`tasks, if entry.Some? then {entry.value.hub} else {}
      ensures Valid() && forwardTask.None? && tasks == Return(old(tasks), old(forwardTask))
      ensures clientRec == old(clientRec) && records == old(records)
      ensures AllBack(records) <==> clientRec.None? && records.lost == {}
      ensures AllBack(tasks) <==> tasks.lost == {}
      ensures entry.Some? ==>
                && entry.value.hub.fanIn == old(entry.value.hub.fanIn)
                && entry.value.hub.receivers == old(entry.value.hub.receivers) -
                     (if old(forwardTask).Some? then {old(forwardTask).value.receiver} else {})
                && entry.value.clients.clients == old(entry.value.clients.clients)
    {
      AbortTask();
    }
  }

  // Any handler that holds a record and a forward task, is granted another request and closes its channel:
  // the first record stays in the registry and the first receiver in the hub, where it counts against
  // `max_clients`, and the handler will never detach the one or abort the other.
  method SecondShellLoses(h: ClientHandler)
    requires h.Valid() && h.clientRec.Some? && h.forwardTask.Some?
    requires h.entry.value.hub.Valid() && h.entry.value.clients.Valid()
    requires h.clientRec.value.id in h.entry.value.clients.clients
    requires h.forwardTask.value.receiver in h.entry.value.hub.receivers
    requires h.entry.value.hub.SubscriberCount() < h.maxClients
    modifies h, h.Shared()
    ensures h.Valid() && h.clientRec.None? && h.forwardTask.None? && h.entry == old(h.entry)
    ensures old(h.clientRec.value) in h.records.lost && old(h.forwardTask.value) in h.tasks.lost
    ensures old(h.clientRec.value).id in h.entry.value.clients.clients
    ensures old(h.forwardTask.value).receiver in h.entry.value.hub.receivers
  {
    ghost var held := h.clientRec.value;
    ghost var task := h.forwardTask.value;
    h.StartShellOrExec(None, false, Wait(0, false));
    assert held in h.records.lost && held.id in h.entry.value.clients.clients && held.id != h.clientRec.value.id;
    assert task in h.tasks.lost && task.receiver != h.forwardTask.value.receiver;
    h.ChannelClose();
  }

  // The sequence from the start: log in, ask for a shell twice, close the channel.
  method TwoShells() returns (h: ClientHandler, rec: ClientRecord, task: Task)
    ensures h.Valid() && h.clientRec.None? && h.forwardTask.None? && h.entry.Some?
    ensures rec in h.records.lost && rec.id in h.entry.value.clients.clients
    ensures task in h.tasks.lost && task.receiver in h.entry.value.hub.receivers
  {
    h := LoggedIn(2);
    h.StartShellOrExec(None, false, Wait(0, false));
    rec, task := h.clientRec.value, h.forwardTask.value;
    SecondShellLoses(h);
  }

  method LoggedIn(maxClients: nat) returns (h: ClientHandler)
    ensures fresh(h) && h.Valid() && h.maxClients == maxClients && h.entry.Some? && fresh(h.Shared())
    ensures h.entry.value.hub.Valid() && h.entry.value.clients.Valid() && h.entry.value.hub.SubscriberCount() == 0
  {
    var hub := new Hub(1);
    var mgr := new Sessions.SessionMgr();
    var r := mgr.Register("a", [], hub);
    assert Names.AllowedName("a");
    assert MatchesUser(mgr.inner[Names.Lower("a")], "a", []);
    h := new ClientHandler(maxClients, "peer");
    var accepted := h.AuthPassword(mgr, "a", []);
  }
}
