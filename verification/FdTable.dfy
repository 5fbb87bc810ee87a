/** File descriptors of the guest: the descriptor tables, eventfd counters and epoll registrations
    over every sequence of system calls. */
module FdTable {
  import opened Wrappers

  const COUNTER_MAX: nat := 0xFFFF_FFFF_FFFF_FFFE
  const FIRST_FD: nat := 3
  const O_ACCMODE: int := 4

  datatype Registration = Registration(events: nat, data: nat)

  datatype Special = EventFd(writeFd: nat, counter: nat,
                             semaphore: bool) | Epoll(writeFd: nat, registrations: map<nat, Registration>)

  /** The host side: open descriptors, the write end behind each read end, bytes waiting in a pipe. */
  datatype Host = Host(open: set<nat>, pipes: map<nat, nat>, bytes: map<nat, nat>)

  /** A host descriptor belongs to a table entry or to the wake-up end of a special entry. */
  datatype Owner = Entry(fd: nat) | Wake(fd: nat)

  /** `owner` only observes: who holds each host descriptor the guest's tables refer to. */
  datatype Fds = Fds(
    table: map<nat, nat>, status: map<nat, int>, flags: map<nat, int>, special: map<nat, Special>, host: Host,
        owner: map<nat, Owner>)

  datatype Errno = EBADF | EINVAL | EAGAIN | EEXIST | ENOENT | EFAULT

  datatype Return = Value(value: nat) | Error(errno: Errno)

  function Initial(): Fds {
    Fds(map[0 := 0, 1 := 1, 2 := 2], map[0 := 0, 1 := 0, 2 := 0], map[0 := 0, 1 := 0, 2 := 0], map[],
        Host({0, 1, 2}, map[], map[]),
        map[0 := Entry(0), 1 := Entry(1), 2 := Entry(2)])
  }

  // -- The host -----------------------------------------------------------------------------------

  function CloseHost(h: Host, fd: nat): Host { h.(open := h.open - {fd}) }

  function OpenHost(h: Host, fd: nat): Host { h.(open := h.open + {fd}) }

  function NewPipe(h: Host, r: nat, w: nat): Host { Host(h.open + {r, w}, h.pipes[r := w], h.bytes[w := 0]) }

  function Waiting(h: Host, w: nat): nat { if w in h.bytes then h.bytes[w] else 0 }

  function WriteByte(h: Host, w: nat): Host { h.(bytes := h.bytes[w := Waiting(h, w) + 1]) }

  function ReadByte(h: Host, r: nat): Host {
    if r in h.pipes
      && Waiting(h, h.pipes[r]) > 0 then h.(bytes := h.bytes[h.pipes[r] := Waiting(h, h.pipes[r]) - 1]) else h
  }

  // -- The invariant ------------------------------------------------------------------------------

  ghost predicate KeysOk(s: Fds) { s.table.Keys == s.status.Keys == s.flags.Keys && s.special.Keys <= s.table.Keys }

  /** `owner` is the inverse of the tables, so each host descriptor in them has exactly one place. */
  ghost predicate OwnersOk(s: Fds) {
    && (forall g :: g in s.table ==> s.table[g] in s.owner && s.owner[s.table[g]] == Entry(g))
    && (forall g :: g in s.special ==> s.special[g].writeFd in s.owner && s.owner[s.special[g].writeFd] == Wake(g))
    && (forall h :: h in s.owner ==> Holds(s, h, s.owner[h]))
  }

  predicate Holds(s: Fds, h: nat, o: Owner) {
    match o
    case Entry(g) => g in s.table && s.table[g] == h
    case Wake(g) => g in s.special && s.special[g].writeFd == h
  }

  /** Every registration names an open fd that is not itself an epoll. */
  ghost predicate EpollOk(s: Fds) {
    forall e :: e in s.special && s.special[e].Epoll? ==> NamesOk(s, s.special[e].registrations)
  }

  ghost predicate NamesOk(s: Fds, registrations: map<nat, Registration>) {
    forall g :: g in registrations ==> g in s.table && !(g in s.special && s.special[g].Epoll?)
  }

  /** The pipe of an eventfd holds one byte iff its counter is nonzero. */
  ghost predicate EventOk(s: Fds) { forall g :: g in s.special && s.special[g].EventFd? ==> PipeOk(s, g, s.special[g]) }

  predicate PipeOk(s: Fds, g: nat, e: Special)
    requires e.EventFd?
  {
    && g in s.table && s.table[g] in s.host.pipes && s.host.pipes[s.table[g]] == e.writeFd
    && Waiting(s.host, e.writeFd) == (if e.counter != 0 then 1 else 0) && e.counter <= COUNTER_MAX + 1
  }

  /** `extra` are host descriptors just obtained and not yet stored anywhere. */
  ghost predicate HostOk(s: Fds, extra: set<nat>) { s.host.open == s.owner.Keys + extra && s.owner.Keys !! extra }

  ghost predicate Inv(s: Fds, extra: set<nat>) {
    KeysOk(s) && OwnersOk(s) && EpollOk(s) && EventOk(s) && HostOk(s, extra)
  }

  /** What ownership means for the tables themselves: no descriptor occurs twice, and the open host
      descriptors are exactly those that occur. */
  lemma OneOwnerEach(s: Fds, a: nat, b: nat)
    requires Inv(s, {})
    ensures a in s.table && b in s.table && s.table[a] == s.table[b] ==> a == b
    ensures a in s.special && b in s.special && s.special[a].writeFd == s.special[b].writeFd ==> a == b
    ensures a in s.table && b in s.special ==> s.table[a] != s.special[b].writeFd
    ensures forall h ::
      h in s.host.open <==>
        (exists g :: g in s.table && s.table[g] == h) || (exists g :: g in s.special && s.special[g].writeFd == h)
  {
    forall h | h in s.host.open ensures (exists g :: g in s.table && s.table[g] == h)
      || (exists g :: g in s.special && s.special[g].writeFd == h) {
      assert Holds(s, h, s.owner[h]);
    }
  }

  // -- Releasing and inserting --------------------------------------------------------------------

  function Unregister(x: Special, g: nat): (r: Special)
    ensures r.writeFd == x.writeFd && (r.Epoll? <==> x.Epoll?) && (x.EventFd? ==> r == x)
  {
    if x.Epoll? then x.(registrations := x.registrations - {g}) else x
  }

  function Unregistered(special: map<nat, Special>, g: nat): map<nat, Special> {
    map f | f in special && f != g :: Unregister(special[f], g)
  }

  /** `release_guest_fd`: drop every registration of `g`, its table entries and its host descriptors. */
  function Release(s: Fds, g: nat): Fds {
    var h1 := if g in s.table then CloseHost(s.host, s.table[g]) else s.host;
    var h2 := if g in s.special then CloseHost(h1, s.special[g].writeFd) else h1;
    var o1 := if g in s.table then s.owner - {s.table[g]} else s.owner;
    var o2 := if g in s.special then o1 - {s.special[g].writeFd} else o1;
    Fds(s.table - {g}, s.status - {g}, s.flags - {g}, Unregistered(s.special, g), h2, o2)
  }

  /** Every descriptor that a release closes is open at that moment: nothing is closed twice. */
  lemma ReleaseClosesOpen(s: Fds, g: nat, extra: set<nat>)
    requires Inv(s, extra)
    ensures g in s.table ==> s.table[g] in s.host.open
    ensures g in s.special ==> s.special[g].writeFd in CloseHost(s.host, s.table[g]).open
  {
  }

  lemma ReleaseEntry(s: Fds, g: nat, a: nat)
    requires KeysOk(s) && OwnersOk(s)
    ensures var r := Release(s, g);
      && (a in r.table ==> r.table[a] in r.owner && r.owner[r.table[a]] == Entry(a))
      && (a in r.special ==> r.special[a].writeFd in r.owner && r.owner[r.special[a].writeFd] == Wake(a))
  {
    if a in s.table { assert s.owner[s.table[a]] == Entry(a); }
    if a in s.special { assert s.owner[s.special[a].writeFd] == Wake(a); }
    if g in s.table { assert s.owner[s.table[g]] == Entry(g); }
    if g in s.special { assert s.owner[s.special[g].writeFd] == Wake(g); }
  }

  lemma ReleaseHeld(s: Fds, g: nat, h: nat)
    requires KeysOk(s) && OwnersOk(s) && h in Release(s, g).owner
    ensures Holds(Release(s, g), h, Release(s, g).owner[h])
  {
    assert h in s.owner && Holds(s, h, s.owner[h]);
  }

  lemma ReleaseOwners(s: Fds, g: nat)
    requires KeysOk(s) && OwnersOk(s)
    ensures OwnersOk(Release(s, g))
  {
    var r := Release(s, g);
    forall a: nat
      ensures a in r.table ==> r.table[a] in r.owner && r.owner[r.table[a]] == Entry(a)
      ensures a in r.special ==> r.special[a].writeFd in r.owner && r.owner[r.special[a].writeFd] == Wake(a)
    {
      ReleaseEntry(s, g, a);
    }
    forall h | h in r.owner ensures Holds(r, h, r.owner[h]) { ReleaseHeld(s, g, h); }
  }

  lemma ReleaseEpolls(s: Fds, g: nat)
    requires EpollOk(s)
    ensures EpollOk(Release(s, g))
  {
    var r := Release(s, g);
    forall e | e in r.special && r.special[e].Epoll? ensures NamesOk(r, r.special[e].registrations) {
      assert NamesOk(s, s.special[e].registrations);
    }
  }

  lemma ReleaseEvents(s: Fds, g: nat)
    requires EventOk(s)
    ensures EventOk(Release(s, g))
  {
    var r := Release(s, g);
    forall f | f in r.special && r.special[f].EventFd? ensures PipeOk(r, f, r.special[f]) {
      assert PipeOk(s, f, s.special[f]);
    }
  }

  lemma ReleaseHost(s: Fds, g: nat, extra: set<nat>)
    requires KeysOk(s) && HostOk(s, extra) && (g in s.table ==> s.table[g] in s.owner)
      && (g in s.special ==> s.special[g].writeFd in s.owner)
    ensures var r := Release(s, g); KeysOk(r) && HostOk(r, extra)
  {
  }

  lemma ReleaseKeeps(s: Fds, g: nat, extra: set<nat>)
    requires Inv(s, extra)
    ensures Inv(Release(s, g), extra)
  {
    ReleaseOwners(s, g);
    ReleaseEpolls(s, g);
    ReleaseEvents(s, g);
    ReleaseHost(s, g, extra);
  }

  function Put(s: Fds, g: nat, host: nat, status: int, flags: int): Fds {
    s.(table := s.table[g := host], status := s.status[g := status], flags := s.flags[g := flags],
        owner := s.owner[host := Entry(g)])
  }

  function Insert(s: Fds, g: nat, host: nat, status: int, flags: int): Fds {
    Put(Release(s, g), g, host, status, flags)
  }

  lemma PutOwners(s: Fds, g: nat, host: nat, status: int, flags: int)
    requires KeysOk(s) && OwnersOk(s) && host !in s.owner && g !in s.table
    ensures OwnersOk(Put(s, g, host, status, flags))
  {
    var r := Put(s, g, host, status, flags);
    forall h | h in r.owner ensures Holds(r, h, r.owner[h]) {
      if h != host { assert Holds(s, h, s.owner[h]); }
    }
  }

  lemma PutRest(s: Fds, g: nat, host: nat, status: int, flags: int)
    requires KeysOk(s) && EpollOk(s) && EventOk(s) && g !in s.table
    ensures var r := Put(s, g, host, status, flags); EpollOk(r) && EventOk(r)
  {
    var r := Put(s, g, host, status, flags);
    forall e | e in r.special && r.special[e].Epoll? ensures NamesOk(r, r.special[e].registrations) {
      assert NamesOk(s, s.special[e].registrations);
    }
    forall f | f in r.special && r.special[f].EventFd? ensures PipeOk(r, f, r.special[f]) {
      assert PipeOk(s, f, s.special[f]);
    }
  }

  lemma PutKeeps(s: Fds, g: nat, host: nat, status: int, flags: int, extra: set<nat>)
    requires Inv(s, extra) && host in extra && g !in s.table
    ensures Inv(Put(s, g, host, status, flags), extra - {host})
  {
    PutOwners(s, g, host, status, flags);
    PutRest(s, g, host, status, flags);
  }

  lemma InsertKeeps(s: Fds, g: nat, host: nat, status: int, flags: int, extra: set<nat>)
    requires Inv(s, extra) && host in extra
    ensures Inv(Insert(s, g, host, status, flags), extra - {host})
  {
    ReleaseKeeps(s, g, extra);
    PutKeeps(Release(s, g), g, host, status, flags, extra);
  }

  /** `alloc_guest_fd_from`: the least fd from `fd` on that is not in use. */
  function FreeFrom(table: map<nat, nat>, fd: nat): (r: nat)
    ensures r !in table && fd <= r && forall k :: fd <= k < r ==> k in table
    decreases |set k | k in table && k >= fd|
  {
    if fd !in table then fd
    else
      Shrinks(table, fd);
      FreeFrom(table, fd + 1)
  }

  lemma Shrinks(table: map<nat, nat>, fd: nat)
    requires fd in table
    ensures |set k | k in table && k >= fd + 1| < |set k | k in table && k >= fd|
  {
    var a, b := set k | k in table && k >= fd + 1, set k | k in table && k >= fd;
    assert a <= b && fd in b && fd !in a;
    assert b == a + (b - a);
    assert |b| == |a| + |b - a|;
  }

  function AllocFrom(table: map<nat, nat>, min: nat): nat { FreeFrom(table, if min < FIRST_FD then FIRST_FD else min) }

  // -- System calls -------------------------------------------------------------------------------

  /** openat with the host descriptor `host`. */
  function OpenFile(s: Fds, host: nat, status: int): (Fds, Return) {
    var g := AllocFrom(s.table, FIRST_FD);
    (Insert(s.(host := OpenHost(s.host, host)), g, host, status, 0), Value(g))
  }

  function CloseFd(s: Fds, g: nat): (Fds, Return) {
    if g !in s.table then (s, Error(EBADF)) else (Release(s, g), Value(0))
  }

  /** F_DUPFD: special descriptors cannot be duplicated. */
  function Dup(s: Fds, g: nat, min: nat, cloexec: int, host: nat): (Fds, Return) {
    if g in s.special then (s, Error(EINVAL))
    else if g !in s.table then (s, Error(EBADF))
    else
      var n := AllocFrom(s.table, min);
      (Insert(s.(host := OpenHost(s.host, host)), n, host, if g in s.status then s.status[g] else 0, cloexec), Value(n))
  }

  function DupTo(s: Fds, g: nat, target: nat, cloexec: int, host: nat): (Fds, Return) {
    if g == target || g in s.special then (s, Error(EINVAL))
    else if g !in s.table then (s, Error(EBADF))
    else (Insert(s.(host := OpenHost(s.host, host)), target, host, if g in s.status then s.status[g] else 0, cloexec),
        Value(target))
  }

  /** pipe2; when the guest's buffer is not writable both host ends are closed again. */
  function Pipe2(s: Fds, r: nat, w: nat, writable: bool, readStatus: int, writeStatus: int, flags: int): (Fds, Return) {
    var piped := s.(host := NewPipe(s.host, r, w));
    if !writable then (s.(host := CloseHost(CloseHost(piped.host, r), w)), Error(EFAULT))
    else
      var a := AllocFrom(s.table, FIRST_FD);
      var b := AllocFrom(s.table, a + 1);
      (Insert(Insert(piped, a, r, readStatus, flags), b, w, writeStatus, flags), Value(0))
  }

  function AddSpecial(s: Fds, g: nat, x: Special): Fds {
    s.(special := s.special[g := x], owner := s.owner[x.writeFd := Wake(g)])
  }

  function MakeSpecial(s: Fds, r: nat, status: int, flags: int, x: Special): (Fds, Return) {
    var g := AllocFrom(s.table, FIRST_FD);
    var inserted := Insert(s, g, r, status, flags);
    (AddSpecial(inserted, g, x), Value(g))
  }

  function EventFd2(s: Fds, init: nat, semaphore: bool, status: int, flags: int, r: nat, w: nat): (Fds, Return) {
    var piped := NewPipe(s.host, r, w);
    MakeSpecial(s.(host := if init != 0 then WriteByte(piped, w) else piped), r, status, flags,
        EventFd(w, init, semaphore))
  }

  function EpollCreate(s: Fds, status: int, flags: int, r: nat, w: nat): (Fds, Return) {
    MakeSpecial(s.(host := NewPipe(s.host, r, w)), r, status, flags, Epoll(w, map[]))
  }

  /** write: to an eventfd it adds `value` (`None` for an unreadable buffer); a plain descriptor is the
      host's business, which moves `done` bytes. */
  function EventWrite(s: Fds, g: nat, size: nat, value: Option<nat>, done: nat): (Fds, Return) {
    if g !in s.special then (s, if g in s.table then Value(done) else Error(EBADF))
    else if s.special[g].Epoll? || size != 8 then (s, Error(EINVAL))
    else if value.None? then (s, Error(EFAULT))
    else if value.value >= COUNTER_MAX + 1 then (s, Error(EINVAL))
    else
      var e := s.special[g];
      if e.counter + value.value > COUNTER_MAX then (s, Error(EAGAIN))
      else
        var n := e.counter + value.value;
        (s.(special := s.special[g := e.(counter := n)],
            host := if e.counter == 0 && n != 0 then WriteByte(s.host, e.writeFd) else s.host), Value(8))
  }

  /** read: an eventfd's counter is taken even when the guest's buffer is not writable. */
  function EventRead(s: Fds, g: nat, size: nat, writable: bool, done: nat): (Fds, Return) {
    if g !in s.table then (s, Error(EBADF))
    else if g !in s.special then (s, if writable then Value(done) else Error(EFAULT))
    else if s.special[g].Epoll? || size != 8 then (s, Error(EINVAL))
    else
      var e := s.special[g];
      if e.counter == 0 then (s, Error(EAGAIN))
      else
        var n := if e.semaphore then e.counter - 1 else 0;
        (s.(special := s.special[g := e.(counter := n)],
            host := if n == 0 then ReadByte(s.host, s.table[g]) else s.host),
         if writable then Value(8) else Error(EFAULT))
  }

  datatype CtlOp = Add | Mod | Del | OtherOp

  /** epoll_ctl; `event` is what the guest's event pointer holds, if readable. */
  function EpollCtl(s: Fds, epfd: nat, op: CtlOp, target: nat, event: Option<Registration>): (Fds, Return) {
    if target == epfd || (target in s.special && s.special[target].Epoll?) then (s, Error(EINVAL))
    else if target !in s.table then (s, Error(EBADF))
    else if op == OtherOp then (s, Error(EINVAL))
    else if op != Del && event.None? then (s, Error(EFAULT))
    else if epfd !in s.special || s.special[epfd].EventFd? then (s, Error(EBADF))
    else
      var e := s.special[epfd];
      if op == Add && target in e.registrations then (s, Error(EEXIST))
      else if op != Add && target !in e.registrations then (s, Error(ENOENT))
      else
        var next := if op == Del then e.registrations - {target} else e.registrations[target := event.value];
        (s.(special := s.special[epfd := e.(registrations := next)]), Value(0))
  }

  /** epoll_pwait drops the one-shot registrations it reported. */
  function DropReported(s: Fds, epfd: nat, reported: set<nat>, produced: nat): (Fds, Return) {
    if epfd !in s.special || s.special[epfd].EventFd? then (s, Error(EBADF))
    else (s.(special := s.special[epfd := s.special[epfd].(registrations := s.special[epfd].registrations - reported)]),
          Value(produced))
  }

  function SetFdFlags(s: Fds, g: nat, v: int): (Fds, Return) {
    if g !in s.table then (s, Error(EBADF)) else (s.(flags := s.flags[g := v]), Value(0))
  }

  function SetStatus(s: Fds, g: nat, v: int): (Fds, Return) {
    if g !in s.table then (s, Error(EBADF))
    else
      var before := if g in s.status then s.status[g] else 0;
      (s.(status := s.status[g := before % O_ACCMODE + (v - v % O_ACCMODE)]), Value(0))
  }

  /** A system call with the descriptors the host hands out for it. */
  datatype Call =
    | OpenAt(host: nat, status: int)
    | Close(fd: nat)
    | FcntlDup(fd: nat, min: nat, cloexec: int, host: nat)
    | Dup3(fd: nat, target: nat, cloexec: int, host: nat)
    | MakePipe(r: nat, w: nat, writable: bool, readStatus: int, writeStatus: int, flags: int)
    | MakeEventFd(init: nat, semaphore: bool, status: int, flags: int, r: nat, w: nat)
    | MakeEpoll(status: int, flags: int, r: nat, w: nat)
    | WriteFd(fd: nat, size: nat, value: Option<nat>, done: nat)
    | ReadFd(fd: nat, size: nat, writable: bool, done: nat)
    | Ctl(epfd: nat, op: CtlOp, target: nat, event: Option<Registration>)
    | Pwait(epfd: nat, reported: set<nat>, produced: nat)
    | FcntlSetFd(fd: nat, bits: int)
    | FcntlSetFl(fd: nat, bits: int)

  function Step(s: Fds, c: Call): (Fds, Return) {
    match c
    case OpenAt(host, status) => OpenFile(s, host, status)
    case Close(fd) => CloseFd(s, fd)
    case FcntlDup(fd, min, cloexec, host) => Dup(s, fd, min, cloexec, host)
    case Dup3(fd, target, cloexec, host) => DupTo(s, fd, target, cloexec, host)
    case MakePipe(r, w, writable, readStatus, writeStatus, flags) => Pipe2(s, r, w, writable, readStatus, writeStatus,
        flags)
    case MakeEventFd(init, semaphore, status, flags, r, w) => EventFd2(s, init, semaphore, status, flags, r, w)
    case MakeEpoll(status, flags, r, w) => EpollCreate(s, status, flags, r, w)
    case WriteFd(fd, size, value, done) => EventWrite(s, fd, size, value, done)
    case ReadFd(fd, size, writable, done) => EventRead(s, fd, size, writable, done)
    case Ctl(epfd, op, target, event) => EpollCtl(s, epfd, op, target, event)
    case Pwait(epfd, reported, produced) => DropReported(s, epfd, reported, produced)
    case FcntlSetFd(fd, value) => SetFdFlags(s, fd, value)
    case FcntlSetFl(fd, value) => SetStatus(s, fd, value)
  }

  /** The host hands out descriptors that are not open; counters start as 64-bit values. */
  predicate HostFresh(s: Fds, c: Call) {
    match c
    case OpenAt(host, _) => host !in s.host.open
    case FcntlDup(_, _, _, host) => host !in s.host.open
    case Dup3(_, _, _, host) => host !in s.host.open
    case MakePipe(r, w, _, _, _, _) => r != w && r !in s.host.open && w !in s.host.open
    case MakeEventFd(init, _, _, _, r, w) => r != w && r !in s.host.open && w !in s.host.open && init <= COUNTER_MAX + 1
    case MakeEpoll(_, _, r, w) => r != w && r !in s.host.open && w !in s.host.open
    case _ => true
  }

  // -- Every call keeps the invariant -------------------------------------------------------------

  /** Changes on the host that touch no pipe of an eventfd. */
  lemma HostKeeps(s: Fds, h: Host, extra: set<nat>, extra': set<nat>)
    requires Inv(s, extra) && h.open == s.owner.Keys + extra' && s.owner.Keys !! extra'
    requires forall g :: g in s.special && s.special[g].EventFd? ==> PipeOk(s.(host := h), g, s.special[g])
    ensures Inv(s.(host := h), extra')
  {
    var t := s.(host := h);
    forall x | x in t.owner ensures Holds(t, x, t.owner[x]) { assert Holds(s, x, s.owner[x]); }
    forall e | e in t.special && t.special[e].Epoll? ensures NamesOk(t, t.special[e].registrations) {
      assert NamesOk(s, s.special[e].registrations);
    }
  }

  lemma InsertHost(s: Fds, g: nat, host: nat, status: int, flags: int)
    requires Inv(s, {}) && host !in s.host.open
    ensures Inv(Insert(s.(host := OpenHost(s.host, host)), g, host, status, flags), {})
  {
    OpenKeeps(s, host);
    InsertKeeps(s.(host := OpenHost(s.host, host)), g, host, status, flags, {host});
    assert {host} - {host} == {};
  }

  /** A new pipe leaves every eventfd's own pipe as it is. */
  lemma NewPipeKeeps(s: Fds, r: nat, w: nat)
    requires Inv(s, {}) && r != w && r !in s.host.open && w !in s.host.open
    ensures Inv(s.(host := NewPipe(s.host, r, w)), {r, w})
  {
    var h := NewPipe(s.host, r, w);
    forall f | f in s.special && s.special[f].EventFd? ensures PipeOk(s.(host := h), f, s.special[f]) {
      assert PipeOk(s, f, s.special[f]);
      assert s.table[f] in s.owner && s.special[f].writeFd in s.owner;
    }
    HostKeeps(s, h, {}, {r, w});
  }

  lemma Pipe2Keeps(s: Fds, r: nat, w: nat, writable: bool, readStatus: int, writeStatus: int, flags: int)
    requires Inv(s, {}) && r != w && r !in s.host.open && w !in s.host.open
    ensures Inv(Pipe2(s, r, w, writable, readStatus, writeStatus, flags).0, {})
  {
    var piped := s.(host := NewPipe(s.host, r, w));
    NewPipeKeeps(s, r, w);
    if !writable {
      ClosedAgain(s, piped, r, w);
    } else {
      var a := AllocFrom(s.table, FIRST_FD);
      var b := AllocFrom(s.table, a + 1);
      InsertKeeps(piped, a, r, readStatus, flags, {r, w});
      assert {r, w} - {r} == {w};
      InsertKeeps(Insert(piped, a, r, readStatus, flags), b, w, writeStatus, flags, {w});
      assert {w} - {w} == {};
    }
  }

  lemma ClosedAgain(s: Fds, piped: Fds, r: nat, w: nat)
    requires Inv(piped, {r, w}) && r != w && r !in s.host.open && w !in s.host.open
      && piped == s.(host := NewPipe(s.host, r, w)) && HostOk(s, {})
    ensures Inv(s.(host := CloseHost(CloseHost(piped.host, r), w)), {})
  {
    var h := CloseHost(CloseHost(piped.host, r), w);
    forall f | f in s.special && s.special[f].EventFd? ensures PipeOk(s.(host := h), f, s.special[f]) {
      assert PipeOk(piped, f, piped.special[f]);
    }
    HostKeeps(piped, h, {r, w}, {});
  }

  lemma AddSpecialOwners(s: Fds, g: nat, x: Special)
    requires OwnersOk(s) && x.writeFd !in s.owner && g in s.table && g !in s.special
    ensures OwnersOk(AddSpecial(s, g, x))
  {
    var t := AddSpecial(s, g, x);
    forall h | h in t.owner ensures Holds(t, h, t.owner[h]) {
      if h != x.writeFd { assert Holds(s, h, s.owner[h]); }
    }
  }

  lemma AddSpecialRest(s: Fds, g: nat, x: Special)
    requires EpollOk(s) && EventOk(s) && g in s.table && g !in s.special
    requires forall e :: e in s.special && s.special[e].Epoll? ==> g !in s.special[e].registrations
    requires if x.Epoll? then x.registrations == map[] else PipeOk(s, g, x)
    ensures var t := AddSpecial(s, g, x); EpollOk(t) && EventOk(t)
  {
    var t := AddSpecial(s, g, x);
    forall e | e in t.special && t.special[e].Epoll? ensures NamesOk(t, t.special[e].registrations) {
      if e != g { assert NamesOk(s, s.special[e].registrations); }
    }
    forall f | f in t.special && t.special[f].EventFd? ensures PipeOk(t, f, t.special[f]) {
      if f != g { assert PipeOk(s, f, s.special[f]); }
    }
  }

  /** Turn the fresh plain entry `g` into a special one that owns its write end. */
  lemma AddSpecialKeeps(s: Fds, g: nat, x: Special)
    requires Inv(s, {x.writeFd}) && g in s.table && g !in s.special
    requires forall e :: e in s.special && s.special[e].Epoll? ==> g !in s.special[e].registrations
    requires if x.Epoll? then x.registrations == map[] else PipeOk(s, g, x)
    ensures Inv(AddSpecial(s, g, x), {})
  {
    AddSpecialOwners(s, g, x);
    AddSpecialRest(s, g, x);
  }

  /** Releasing an unused fd does nothing, and nothing is registered under it. */
  lemma UnusedFd(s: Fds, g: nat, extra: set<nat>)
    requires Inv(s, extra) && g !in s.table
    ensures forall e :: e in s.special && s.special[e].Epoll? ==> g !in s.special[e].registrations
    ensures Release(s, g) == s
  {
    forall e | e in s.special && s.special[e].Epoll? ensures g !in s.special[e].registrations {
      assert NamesOk(s, s.special[e].registrations);
    }
    var r := Release(s, g);
    forall f | f in s.special ensures f in r.special && r.special[f] == s.special[f] {
      if s.special[f].Epoll? { assert s.special[f].registrations - {g} == s.special[f].registrations; }
    }
    assert r.special == s.special && r.table == s.table && r.status == s.status && r.flags == s.flags;
  }

  lemma MakeSpecialKeeps(s: Fds, r: nat, status: int, flags: int, x: Special)
    requires Inv(s, {r, x.writeFd}) && r != x.writeFd
    requires if x.Epoll? then x.registrations == map[]
             else
               && r in s.host.pipes && s.host.pipes[r] == x.writeFd && x.counter <= COUNTER_MAX + 1
               && Waiting(s.host, x.writeFd) == (if x.counter != 0 then 1 else 0)
    ensures Inv(MakeSpecial(s, r, status, flags, x).0, {})
  {
    var g, w := AllocFrom(s.table, FIRST_FD), x.writeFd;
    UnusedFd(s, g, {r, w});
    InsertKeeps(s, g, r, status, flags, {r, w});
    assert {r, w} - {r} == {w};
    AddSpecialKeeps(Insert(s, g, r, status, flags), g, x);
  }

  lemma EventFdKeeps(s: Fds, init: nat, semaphore: bool, status: int, flags: int, r: nat, w: nat)
    requires Inv(s, {}) && r != w && r !in s.host.open && w !in s.host.open && init <= COUNTER_MAX + 1
    ensures Inv(EventFd2(s, init, semaphore, status, flags, r, w).0, {})
  {
    var piped := s.(host := NewPipe(s.host, r, w));
    NewPipeKeeps(s, r, w);
    var h := if init != 0 then WriteByte(piped.host, w) else piped.host;
    forall f | f in s.special && s.special[f].EventFd? ensures PipeOk(s.(host := h), f, s.special[f]) {
      assert PipeOk(piped, f, piped.special[f]);
      assert s.special[f].writeFd in s.owner;
    }
    HostKeeps(piped, h, {r, w}, {r, w});
    MakeSpecialKeeps(s.(host := h), r, status, flags, EventFd(w, init, semaphore));
  }

  lemma EpollKeeps(s: Fds, status: int, flags: int, r: nat, w: nat)
    requires Inv(s, {}) && r != w && r !in s.host.open && w !in s.host.open
    ensures Inv(EpollCreate(s, status, flags, r, w).0, {})
  {
    NewPipeKeeps(s, r, w);
    MakeSpecialKeeps(s.(host := NewPipe(s.host, r, w)), r, status, flags, Epoll(w, map[]));
  }

  /** Replacing a special entry by one with the same write end changes no owner. */
  lemma SwapOwners(s: Fds, g: nat, x: Special, h: Host)
    requires OwnersOk(s) && g in s.special && x.writeFd == s.special[g].writeFd
    ensures OwnersOk(s.(special := s.special[g := x], host := h))
  {
    var t := s.(special := s.special[g := x], host := h);
    forall y | y in t.owner ensures Holds(t, y, t.owner[y]) { assert Holds(s, y, s.owner[y]); }
  }

  lemma SwapEpolls(s: Fds, g: nat, x: Special, h: Host)
    requires EpollOk(s) && g in s.special && (x.Epoll? <==> s.special[g].Epoll?)
      && (x.Epoll? ==> NamesOk(s, x.registrations))
    ensures EpollOk(s.(special := s.special[g := x], host := h))
  {
    var t := s.(special := s.special[g := x], host := h);
    forall e | e in t.special && t.special[e].Epoll? ensures NamesOk(t, t.special[e].registrations) {
      if e != g { assert NamesOk(s, s.special[e].registrations); }
    }
  }

  /** A new counter value together with the byte it calls for. */
  lemma CounterKeeps(s: Fds, g: nat, n: nat, h: Host)
    requires Inv(s, {}) && g in s.special && s.special[g].EventFd? && n <= COUNTER_MAX + 1
    requires h == s.host.(bytes := h.bytes) && Waiting(h, s.special[g].writeFd) == (if n != 0 then 1 else 0)
    requires forall v :: v != s.special[g].writeFd ==> Waiting(h, v) == Waiting(s.host, v)
    ensures Inv(s.(special := s.special[g := s.special[g].(counter := n)], host := h), {})
  {
    SwapOwners(s, g, s.special[g].(counter := n), h);
    SwapEpolls(s, g, s.special[g].(counter := n), h);
    CounterEvents(s, g, n, h);
  }

  lemma CounterEvents(s: Fds, g: nat, n: nat, h: Host)
    requires OwnersOk(s) && EventOk(s) && g in s.special && s.special[g].EventFd? && n <= COUNTER_MAX + 1
    requires h == s.host.(bytes := h.bytes) && Waiting(h, s.special[g].writeFd) == (if n != 0 then 1 else 0)
    requires forall v :: v != s.special[g].writeFd ==> Waiting(h, v) == Waiting(s.host, v)
    ensures EventOk(s.(special := s.special[g := s.special[g].(counter := n)], host := h))
  {
    var t := s.(special := s.special[g := s.special[g].(counter := n)], host := h);
    forall f | f in t.special && t.special[f].EventFd? ensures PipeOk(t, f, t.special[f]) {
      assert PipeOk(s, f, s.special[f]);
      assert s.owner[s.special[f].writeFd] == Wake(f) && s.owner[s.special[g].writeFd] == Wake(g);
    }
  }

  lemma ByteMoves(h: Host, r: nat, w: nat, v: nat)
    ensures Waiting(WriteByte(h, w), v) == Waiting(h, v) + (if v == w then 1 else 0)
    ensures r in h.pipes && Waiting(h, h.pipes[r]) == 1 ==>
      Waiting(ReadByte(h, r), v) == if v == h.pipes[r] then 0 else Waiting(h, v)
  {
  }

  lemma EventWriteKeeps(s: Fds, g: nat, size: nat, value: Option<nat>, done: nat)
    requires Inv(s, {})
    ensures Inv(EventWrite(s, g, size, value, done).0, {})
  {
    var t := EventWrite(s, g, size, value, done).0;
    if t != s {
      var e := s.special[g];
      var n := e.counter + value.value;
      RaiseKeeps(s, g, n);
      assert t == s.(special := s.special[g := e.(counter := n)],
                     host := if e.counter == 0 && n != 0 then WriteByte(s.host, e.writeFd) else s.host);
    }
  }

  lemma RaiseKeeps(s: Fds, g: nat, n: nat)
    requires Inv(s, {}) && g in s.special && s.special[g].EventFd? && s.special[g].counter <= n <= COUNTER_MAX
    ensures var e := s.special[g];
      Inv(s.(special := s.special[g := e.(counter := n)],
             host := if e.counter == 0 && n != 0 then WriteByte(s.host, e.writeFd) else s.host), {})
  {
    var e := s.special[g];
    assert PipeOk(s, g, e);
    var h := if e.counter == 0 && n != 0 then WriteByte(s.host, e.writeFd) else s.host;
    forall v: nat ensures Waiting(h, v)
        == Waiting(s.host, v) + (if v == e.writeFd && e.counter == 0 && n != 0 then 1 else 0) {
      ByteMoves(s.host, 0, e.writeFd, v);
    }
    CounterKeeps(s, g, n, h);
  }

  lemma EventReadKeeps(s: Fds, g: nat, size: nat, writable: bool, done: nat)
    requires Inv(s, {})
    ensures Inv(EventRead(s, g, size, writable, done).0, {})
  {
    if g in s.special && s.special[g].EventFd? && s.special[g].counter != 0 {
      LowerKeeps(s, g, if s.special[g].semaphore then s.special[g].counter - 1 else 0);
    }
  }

  lemma LowerKeeps(s: Fds, g: nat, n: nat)
    requires Inv(s, {}) && g in s.special && s.special[g].EventFd? && n < s.special[g].counter
    ensures g in s.table
      && Inv(s.(special := s.special[g := s.special[g].(counter := n)],
                host := if n == 0 then ReadByte(s.host, s.table[g]) else s.host), {})
  {
    var e := s.special[g];
    assert PipeOk(s, g, e);
    var h := if n == 0 then ReadByte(s.host, s.table[g]) else s.host;
    forall v: nat ensures Waiting(h, v) == if v == e.writeFd && n == 0 then 0 else Waiting(s.host, v) {
      ByteMoves(s.host, s.table[g], 0, v);
    }
    CounterKeeps(s, g, n, h);
  }

  lemma RegistrationsKeep(s: Fds, e: nat, next: map<nat, Registration>)
    requires Inv(s, {}) && e in s.special && s.special[e].Epoll? && NamesOk(s, next)
    ensures Inv(s.(special := s.special[e := s.special[e].(registrations := next)]), {})
  {
    var x := s.special[e].(registrations := next);
    var t := s.(special := s.special[e := x], host := s.host);
    SwapOwners(s, e, x, s.host);
    SwapEpolls(s, e, x, s.host);
    SwapEvents(s, e, x);
    assert t == s.(special := s.special[e := x]);
  }

  lemma SwapEvents(s: Fds, e: nat, x: Special)
    requires EventOk(s) && x.Epoll?
    ensures EventOk(s.(special := s.special[e := x]))
  {
    var t := s.(special := s.special[e := x]);
    forall f | f in t.special && t.special[f].EventFd? ensures PipeOk(t, f, t.special[f]) {
      assert PipeOk(s, f, s.special[f]);
    }
  }

  /** What epoll_ctl leaves: the same state, or one registration added, replaced or removed. */
  lemma EpollCtlEffect(s: Fds, epfd: nat, op: CtlOp, target: nat, event: Option<Registration>)
    ensures var t := EpollCtl(s, epfd, op, target, event).0;
      t == s || Registers(s, t, epfd, target, if op != Del then event else None)
  {
  }

  predicate Registers(s: Fds, t: Fds, epfd: nat, target: nat, event: Option<Registration>) {
    && epfd in s.special && s.special[epfd].Epoll? && target in s.table
    && !(target in s.special && s.special[target].Epoll?)
    && (var before := s.special[epfd].registrations;
        t == s.(special := s.special[epfd := s.special[epfd].(
                  registrations := if event.Some? then before[target := event.value] else before - {target})]))
  }

  lemma EpollCtlKeeps(s: Fds, epfd: nat, op: CtlOp, target: nat, event: Option<Registration>)
    requires Inv(s, {})
    ensures Inv(EpollCtl(s, epfd, op, target, event).0, {})
  {
    EpollCtlEffect(s, epfd, op, target, event);
    if EpollCtl(s, epfd, op, target, event).0 != s {
      RegisterKeeps(s, epfd, target, if op != Del then event else None);
    }
  }

  lemma RegisterKeeps(s: Fds, epfd: nat, target: nat, event: Option<Registration>)
    requires Inv(s, {}) && epfd in s.special && s.special[epfd].Epoll? && target in s.table
      && !(target in s.special && s.special[target].Epoll?)
    ensures var before := s.special[epfd].registrations;
      Inv(s.(special := s.special[epfd := s.special[epfd].(
               registrations := if event.Some? then before[target := event.value] else before - {target})]), {})
  {
    var before := s.special[epfd].registrations;
    assert NamesOk(s, before);
    RegistrationsKeep(s, epfd, if event.Some? then before[target := event.value] else before - {target});
  }

  lemma PwaitKeeps(s: Fds, epfd: nat, reported: set<nat>, produced: nat)
    requires Inv(s, {})
    ensures Inv(DropReported(s, epfd, reported, produced).0, {})
  {
    if epfd in s.special && s.special[epfd].Epoll? {
      assert NamesOk(s, s.special[epfd].registrations);
      RegistrationsKeep(s, epfd, s.special[epfd].registrations - reported);
    }
  }

  lemma FlagsKeep(s: Fds, status: map<nat, int>, flags: map<nat, int>)
    requires Inv(s, {}) && status.Keys == s.table.Keys == flags.Keys
    ensures Inv(s.(status := status, flags := flags), {})
  {
    var t := s.(status := status, flags := flags);
    forall x | x in t.owner ensures Holds(t, x, t.owner[x]) { assert Holds(s, x, s.owner[x]); }
    forall e | e in t.special && t.special[e].Epoll? ensures NamesOk(t, t.special[e].registrations) {
      assert NamesOk(s, s.special[e].registrations);
    }
    forall f | f in t.special && t.special[f].EventFd? ensures PipeOk(t, f, t.special[f]) {
      assert PipeOk(s, f, s.special[f]);
    }
  }

  lemma FlagCallsKeep(s: Fds, g: nat, v: int)
    requires Inv(s, {})
    ensures Inv(SetFdFlags(s, g, v).0, {}) && Inv(SetStatus(s, g, v).0, {})
  {
    if g in s.table {
      FlagsKeep(s, s.status, s.flags[g := v]);
      FlagsKeep(s, SetStatus(s, g, v).0.status, s.flags);
    }
  }

  /** Every system call keeps the invariant. */
  lemma StepKeeps(s: Fds, c: Call)
    requires Inv(s, {}) && HostFresh(s, c)
    ensures Inv(Step(s, c).0, {})
  {
    match c
    case OpenAt(host, status) => InsertHost(s, AllocFrom(s.table, FIRST_FD), host, status, 0);
    case Close(fd) => ReleaseKeeps(s, fd, {});
    case FcntlDup(fd, min, cloexec, host) => InsertHost(s, AllocFrom(s.table, min), host,
        if fd in s.status then s.status[fd] else 0, cloexec);
    case Dup3(fd, target, cloexec, host) => InsertHost(s, target, host, if fd in s.status then s.status[fd] else 0,
        cloexec);
    case MakePipe(r, w, writable, readStatus, writeStatus, flags) => Pipe2Keeps(s, r, w, writable, readStatus,
        writeStatus, flags);
    case MakeEventFd(init, semaphore, status, flags, r, w) => EventFdKeeps(s, init, semaphore, status, flags, r, w);
    case MakeEpoll(status, flags, r, w) => EpollKeeps(s, status, flags, r, w);
    case WriteFd(fd, size, value, done) => EventWriteKeeps(s, fd, size, value, done);
    case ReadFd(fd, size, writable, done) => EventReadKeeps(s, fd, size, writable, done);
    case Ctl(epfd, op, target, event) => EpollCtlKeeps(s, epfd, op, target, event);
    case Pwait(epfd, reported, produced) => PwaitKeeps(s, epfd, reported, produced);
    case FcntlSetFd(fd, value) => FlagCallsKeep(s, fd, value);
    case FcntlSetFl(fd, value) => FlagCallsKeep(s, fd, value);
  }

  function RunCalls(s: Fds, calls: seq<Call>): Fds
    decreases |calls|
  {
    if calls == [] then s else RunCalls(Step(s, calls[0]).0, calls[1..])
  }

  ghost predicate AllFresh(s: Fds, calls: seq<Call>)
    decreases |calls|
  {
    calls == [] || (HostFresh(s, calls[0]) && AllFresh(Step(s, calls[0]).0, calls[1..]))
  }

  lemma InitialInv()
    ensures Inv(Initial(), {})
  {
  }

  lemma {:induction false} RunKeeps(s: Fds, calls: seq<Call>)
    requires Inv(s, {}) && AllFresh(s, calls)
    ensures Inv(RunCalls(s, calls), {})
    decreases |calls|
  {
    if calls != [] {
      StepKeeps(s, calls[0]);
      RunKeeps(Step(s, calls[0]).0, calls[1..]);
    }
  }

  /** After every sequence of system calls from the start. */
  lemma EverySequence(calls: seq<Call>)
    requires AllFresh(Initial(), calls)
    ensures Inv(RunCalls(Initial(), calls), {})
  {
    InitialInv();
    RunKeeps(Initial(), calls);
  }

  /** The descriptor state of a running guest, updated in place. */
  class Descriptors {
    var table: map<nat, nat>
    var status: map<nat, int>
    var flags: map<nat, int>
    var special: map<nat, Special>
    var host: Host
    var owner: map<nat, Owner>

    function Now(): Fds
      reads this
    {
      Fds(table, status, flags, special, host, owner)
    }

    constructor ()
      ensures Now() == Initial() && Inv(Now(), {})
    {
      table, status, flags, special := Initial().table, Initial().status, Initial().flags, map[];
      host, owner := Initial().host, Initial().owner;
      new;
      InitialInv();
    }

    /** The first free guest fd from `min` on, never below 3. */
    method AllocGuestFdFrom(min: nat) returns (fd: nat)
      ensures fd == AllocFrom(table, min)
    {
      fd := if min < FIRST_FD then FIRST_FD else min;
      ghost var start := fd;
      while fd in table
        invariant FreeFrom(table, fd) == FreeFrom(table, start)
        decreases |set k | k in table && k >= fd|
      {
        Shrinks(table, fd);
        fd := fd + 1;
      }
    }

    /** Closing a host descriptor demands that it is open. */
    method CloseHostFd(fd: nat)
      requires fd in host.open
      modifies this`host, this`owner
      ensures host == CloseHost(old(host), fd) && owner == old(owner) - {fd}
    {
      host := host.(open := host.open - {fd});
      owner := owner - {fd};
    }

    method ReleaseGuestFd(g: nat, ghost extra: set<nat>)
      requires Inv(Now(), extra)
      modifies this
      ensures Now() == Release(old(Now()), g) && Inv(Now(), extra)
    {
      ReleaseClosesOpen(Now(), g, extra);
      ReleaseKeeps(Now(), g, extra);
      if g in table { CloseHostFd(table[g]); }
      if g in special { CloseHostFd(special[g].writeFd); }
      table, status, flags := table - {g}, status - {g}, flags - {g};
      special := Unregistered(special, g);
    }

    method InsertGuestFd(g: nat, hostFd: nat, st: int, fl: int, ghost extra: set<nat>)
      requires Inv(Now(), extra) && hostFd in extra
      modifies this
      ensures Now() == Insert(old(Now()), g, hostFd, st, fl) && Inv(Now(), extra - {hostFd})
    {
      InsertKeeps(Now(), g, hostFd, st, fl, extra);
      ReleaseGuestFd(g, extra);
      table, status, flags := table[g := hostFd], status[g := st], flags[g := fl];
      owner := owner[hostFd := Entry(g)];
    }

    method CloseGuestFd(g: nat) returns (r: Return)
      requires Inv(Now(), {})
      modifies this
      ensures (Now(), r) == CloseFd(old(Now()), g) && Inv(Now(), {})
    {
      if g !in table { return Error(EBADF); }
      ReleaseGuestFd(g, {});
      r := Value(0);
    }

    /** dup3: the host duplicates the descriptor before the target is released. */
    method DuplicateTo(g: nat, target: nat, cloexec: int, hostFd: nat) returns (r: Return)
      requires Inv(Now(), {}) && hostFd !in host.open
      modifies this
      ensures (Now(), r) == DupTo(old(Now()), g, target, cloexec, hostFd)
    {
      if g == target || g in special { return Error(EINVAL); }
      if g !in table { return Error(EBADF); }
      var st := if g in status then status[g] else 0;
      OpenKeeps(Now(), hostFd);
      host := OpenHost(host, hostFd);
      InsertGuestFd(target, hostFd, st, cloexec, {hostFd});
      r := Value(target);
    }

    method WriteEventFd(g: nat, size: nat, value: Option<nat>) returns (r: Return)
      requires g in special && special[g].EventFd?
      modifies this`special, this`host
      ensures (Now(), r) == EventWrite(old(Now()), g, size, value, 0)
    {
      if size != 8 { return Error(EINVAL); }
      if value.None? { return Error(EFAULT); }
      if value.value >= COUNTER_MAX + 1 { return Error(EINVAL); }
      var e := special[g];
      if e.counter + value.value > COUNTER_MAX { return Error(EAGAIN); }
      var n := e.counter + value.value;
      special := special[g := e.(counter := n)];
      if e.counter == 0 && n != 0 { host := WriteByte(host, e.writeFd); }
      r := Value(8);
    }

    method ReadEventFd(g: nat, size: nat, writable: bool) returns (r: Return)
      requires g in table && g in special && special[g].EventFd?
      modifies this`special, this`host
      ensures (Now(), r) == EventRead(old(Now()), g, size, writable, 0)
    {
      if size != 8 { return Error(EINVAL); }
      var e := special[g];
      if e.counter == 0 { return Error(EAGAIN); }
      var n := if e.semaphore then e.counter - 1 else 0;
      special := special[g := e.(counter := n)];
      if n == 0 { host := ReadByte(host, table[g]); }
      r := if writable then Value(8) else Error(EFAULT);
    }
  }

  lemma OpenKeeps(s: Fds, hostFd: nat)
    requires Inv(s, {}) && hostFd !in s.host.open
    ensures Inv(s.(host := OpenHost(s.host, hostFd)), {hostFd})
  {
    var h := OpenHost(s.host, hostFd);
    forall f | f in s.special && s.special[f].EventFd? ensures PipeOk(s.(host := h), f, s.special[f]) {
      assert PipeOk(s, f, s.special[f]);
    }
    HostKeeps(s, h, {}, {hostFd});
  }
}
