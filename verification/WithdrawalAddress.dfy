/**
 The write-once withdrawal address. Any number of processes publish through a
 temporary file and a hard link; a process may be killed between any two
 system calls, and its PID may be reused.
 */
module WithdrawalAddress {
  import opened Chain

  type Address = nat

  /** How an address is written to the file, and how the file is read back. */
  datatype Codec = Codec(text: Address -> string, parse: string -> Option<Address>)

  ghost predicate RoundTrips(c: Codec) {
    forall a: Address :: c.parse(c.text(a)) == Some(a)
  }

  datatype Name = Published | Temporary(pid: nat)

  /** Directory entries and file contents; a link makes two names share one inode. */
  datatype Files = Files(names: map<Name, nat>, inodes: map<nat, string>, nextInode: nat)

  datatype Outcome = Linked | Exists | Failed

  /** Where a process stands inside `get_or_bind`. */
  datatype Pc =
    | Idle
    | Cleaning
    | Creating
    | Writing(fd: nat, done: nat)
    | Linking(file: nat)
    | Tidying(outcome: Outcome)
    | Rereading
    | SyncingDir

  datatype Process = Process(pc: Pc, address: Address, cached: Option<Address>)

  /** Live processes by PID; `returned` is history: every address a successful call returned. */
  datatype World = World(files: Files, procs: map<nat, Process>, returned: set<Address>)

  /** One system call, or a process starting, binding or dying. `ok` is whether the call succeeds. */
  datatype Step =
    | Spawn(pid: nat, ok: bool)
    | Kill(pid: nat)
    | Bind(pid: nat, address: Address)
    | RemoveStale(pid: nat, ok: bool)
    | CreateNew(pid: nat, ok: bool)
    | Append(pid: nat, count: nat, ok: bool)
    | Fsync(pid: nat, ok: bool)
    | HardLink(pid: nat, ok: bool)
    | RemoveTemporary(pid: nat, ok: bool)
    | Reread(pid: nat, ok: bool)
    | SyncDir(pid: nat, ok: bool)

  function Unlink(f: Files, n: Name): Files {
    f.(names := f.names - {n})
  }

  /** What reading the published file yields. */
  datatype Content = Absent | Malformed | Holds(address: Address)

  function ReadPublished(c: Codec, f: Files): Content {
    if Published !in f.names || f.names[Published] !in f.inodes then Absent
    else
      var a := c.parse(f.inodes[f.names[Published]]);
      if a.Some? then Holds(a.value) else Malformed
  }

  function SetPc(w: World, pid: nat, pc: Pc): World
    requires pid in w.procs
  {
    w.(procs := w.procs[pid := w.procs[pid].(pc := pc)])
  }

  /** A successful `get_or_bind`. */
  function Return(w: World, pid: nat, a: Address): World
    requires pid in w.procs
  {
    w.(procs := w.procs[pid := w.procs[pid].(pc := Idle, cached := Some(a))], returned := w.returned + {a})
  }

  predicate At(w: World, pid: nat, pc: Pc) {
    pid in w.procs && w.procs[pid].pc == pc
  }

  /** A process whose first read fails, or finds a malformed file, does not start. */
  function Fork(c: Codec, w: World, pid: nat, ok: bool): World {
    if pid in w.procs || !ok then w
    else match ReadPublished(c, w.files)
      case Absent => w.(procs := w.procs[pid := Process(Idle, 0, None)])
      case Malformed => w
      case Holds(a) => w.(procs := w.procs[pid := Process(Idle, 0, Some(a))])
  }

  function Begin(w: World, pid: nat, a: Address): World {
    if !At(w, pid, Idle) then w
    else if w.procs[pid].cached.Some? then Return(w, pid, w.procs[pid].cached.value)
    else w.(procs := w.procs[pid := w.procs[pid].(pc := Cleaning, address := a)])
  }

  function Create(w: World, pid: nat, ok: bool): World {
    if !At(w, pid, Creating) then w
    else if !ok || Temporary(pid) in w.files.names then SetPc(w, pid, Tidying(Failed))
    else
      var i := w.files.nextInode;
      SetPc(w.(files := Files(w.files.names[Temporary(pid) := i], w.files.inodes[i := ""], i + 1)), pid, Writing(i, 0))
  }

  /** Appends some of the characters still missing; an error may leave any prefix behind. */
  function Extend(c: Codec, w: World, pid: nat, count: nat, ok: bool): World {
    if pid !in w.procs || !w.procs[pid].pc.Writing? then w
    else
      var p := w.procs[pid];
      var text := c.text(p.address);
      if p.pc.done + count > |text| then w
      else
        var files := w.files.(inodes := w.files.inodes[p.pc.fd := text[..p.pc.done + count]]);
        SetPc(w.(files := files), pid, if ok then Writing(p.pc.fd, p.pc.done + count) else Tidying(Failed))
  }

  function Flush(c: Codec, w: World, pid: nat, ok: bool): World {
    if pid !in w.procs || !w.procs[pid].pc.Writing? || w.procs[pid].pc.done != |c.text(w.procs[pid].address)| then w
    else SetPc(w, pid, if ok then Linking(w.procs[pid].pc.fd) else Tidying(Failed))
  }

  /** `link` never replaces a name; any error but an existing name is a failure. */
  function Link(w: World, pid: nat, ok: bool): World {
    if pid !in w.procs || !w.procs[pid].pc.Linking? then w
    else if !ok then SetPc(w, pid, Tidying(Failed))
    else if Published in w.files.names then SetPc(w, pid, Tidying(Exists))
    else if Temporary(pid) !in w.files.names then SetPc(w, pid, Tidying(Failed))
    else
      var files := w.files.(names := w.files.names[Published := w.files.names[Temporary(pid)]]);
      SetPc(w.(files := files), pid, Tidying(Linked))
  }

  function Tidy(w: World, pid: nat, ok: bool): World {
    if pid !in w.procs || !w.procs[pid].pc.Tidying? then w
    else
      var v := if ok then w.(files := Unlink(w.files, Temporary(pid))) else w;
      match w.procs[pid].pc.outcome
      case Failed => SetPc(v, pid, Idle)
      case Exists => SetPc(v, pid, Rereading)
      case Linked => SetPc(v, pid, SyncingDir)
  }

  function Next(c: Codec, w: World, s: Step): World {
    match s
    case Spawn(pid, ok) => Fork(c, w, pid, ok)
    case Kill(pid) => w.(procs := w.procs - {pid})
    case Bind(pid, a) => Begin(w, pid, a)
    case RemoveStale(pid, ok) =>
      if !At(w, pid, Cleaning) then w
      else SetPc(if ok then w.(files := Unlink(w.files, Temporary(pid))) else w, pid, Creating)
    case CreateNew(pid, ok) => Create(w, pid, ok)
    case Append(pid, count, ok) => Extend(c, w, pid, count, ok)
    case Fsync(pid, ok) => Flush(c, w, pid, ok)
    case HardLink(pid, ok) => Link(w, pid, ok)
    case RemoveTemporary(pid, ok) => Tidy(w, pid, ok)
    case Reread(pid, ok) =>
      if !At(w, pid, Rereading) then w
      else
        var r := ReadPublished(c, w.files);
        if ok && r.Holds? then Return(w, pid, r.address) else SetPc(w, pid, Idle)
    case SyncDir(pid, ok) =>
      if !At(w, pid, SyncingDir) then w
      else if ok then Return(w, pid, w.procs[pid].address) else SetPc(w, pid, Idle)
  }

  // -------------------- Invariant --------------------

  /** The published file holds exactly this address. */
  ghost predicate Bound(c: Codec, f: Files, a: Address) {
    && Published in f.names && f.names[Published] in f.inodes
    && f.inodes[f.names[Published]] == c.text(a)
  }

  ghost predicate FilesOk(c: Codec, f: Files) {
    && (forall n :: n in f.names ==> f.names[n] in f.inodes)
    && (forall i :: i in f.inodes ==> i < f.nextInode)
    && (Published in f.names ==> exists a: Address :: Bound(c, f, a))
  }

  /** The inode a process is filling: reachable by its own temporary name, not published, and nobody else's. */
  ghost predicate Private(w: World, pid: nat, fd: nat) {
    && Temporary(pid) in w.files.names && w.files.names[Temporary(pid)] == fd
    && fd in w.files.inodes
    && (Published in w.files.names ==> w.files.names[Published] != fd)
    && (forall q :: q in w.procs && q != pid ==> !Uses(w.procs[q].pc, fd))
  }

  predicate Uses(pc: Pc, fd: nat) {
    (pc.Writing? && pc.fd == fd) || (pc.Linking? && pc.file == fd)
  }

  ghost predicate ProcessOk(c: Codec, w: World, pid: nat)
    requires pid in w.procs
  {
    var p := w.procs[pid];
    && (p.cached.Some? ==> Bound(c, w.files, p.cached.value))
    && match p.pc
       case Writing(fd, done) =>
         done <= |c.text(p.address)| && Private(w, pid, fd) && w.files.inodes[fd] == c.text(p.address)[..done]
       case Linking(fd) => Private(w, pid, fd) && w.files.inodes[fd] == c.text(p.address)
       case Tidying(Linked) => Bound(c, w.files, p.address)
       case SyncingDir => Bound(c, w.files, p.address)
       case _ => true
  }

  ghost predicate Inv(c: Codec, w: World) {
    && FilesOk(c, w.files)
    && (forall pid :: pid in w.procs ==> ProcessOk(c, w, pid))
    && (forall a :: a in w.returned ==> Bound(c, w.files, a))
  }

  /** Once published, the file keeps its contents. */
  ghost predicate Keeps(c: Codec, f: Files, g: Files) {
    forall a: Address :: Bound(c, f, a) ==> Bound(c, g, a)
  }

  // -------------------- Steps --------------------

  lemma {:induction false} BoundOnce(c: Codec, f: Files, a: Address, b: Address)
    requires RoundTrips(c) && Bound(c, f, a) && Bound(c, f, b)
    ensures a == b
  {
    assert c.parse(c.text(a)) == Some(a) && c.parse(c.text(b)) == Some(b);
  }

  /** What a process reads is what is bound. */
  lemma {:induction false} ReadIsBound(c: Codec, f: Files)
    requires RoundTrips(c) && FilesOk(c, f)
    ensures ReadPublished(c, f).Absent? <==> Published !in f.names
    ensures ReadPublished(c, f).Holds? ==> Bound(c, f, ReadPublished(c, f).address)
    ensures !ReadPublished(c, f).Malformed?
  {
    if Published in f.names {
      var a: Address :| Bound(c, f, a);
      assert c.parse(c.text(a)) == Some(a);
    }
  }

  /** Processes whose own files did not change stay consistent when others move. */
  lemma {:induction false} OthersKeep(c: Codec, w: World, v: World, pid: nat, q: nat)
    requires q in w.procs && q in v.procs && q != pid && v.procs[q] == w.procs[q]
    requires ProcessOk(c, w, q) && Keeps(c, w.files, v.files)
    requires forall fd :: Uses(w.procs[q].pc, fd) && Private(w, q, fd) ==>
             Private(v, q, fd) && v.files.inodes[fd] == w.files.inodes[fd]
    ensures ProcessOk(c, v, q)
  {
    var pc := w.procs[q].pc;
    if pc.Writing? {
      assert Uses(pc, pc.fd);
    } else if pc.Linking? {
      assert Uses(pc, pc.file);
    }
  }

  /** Steps that leave the files alone and give up any file the process was filling. */
  lemma {:induction false} PureStep(c: Codec, w: World, v: World, pid: nat)
    requires Inv(c, w) && v.files == w.files
    requires v.procs.Keys <= w.procs.Keys + {pid}
    requires forall q :: q in v.procs && q != pid ==> q in w.procs && v.procs[q] == w.procs[q]
    requires pid in v.procs ==>
               ProcessOk(c, v, pid)
               && forall fd :: Uses(v.procs[pid].pc, fd) ==> pid in w.procs && Uses(w.procs[pid].pc, fd)
    requires forall a :: a in v.returned ==> Bound(c, v.files, a)
    ensures Inv(c, v) && Keeps(c, w.files, v.files)
  {
    forall q | q in v.procs
      ensures ProcessOk(c, v, q)
    {
      if q != pid {
        OthersKeep(c, w, v, pid, q);
      }
    }
  }

  lemma {:induction false} UnlinkStep(c: Codec, w: World, pid: nat, pc: Pc)
    requires Inv(c, w) && pid in w.procs
    requires pc == Creating
             || (w.procs[pid].pc.Tidying?
                 && (pc == Idle || pc == Rereading || (pc == SyncingDir && w.procs[pid].pc.outcome == Linked)))
    ensures var v := SetPc(w.(files := Unlink(w.files, Temporary(pid))), pid, pc);
            Inv(c, v) && Keeps(c, w.files, v.files)
  {
    var v := SetPc(w.(files := Unlink(w.files, Temporary(pid))), pid, pc);
    assert Keeps(c, w.files, v.files);
    if Published in v.files.names {
      var a: Address :| Bound(c, w.files, a);
      assert Bound(c, v.files, a);
    }
    forall q | q in v.procs
      ensures ProcessOk(c, v, q)
    {
      assert ProcessOk(c, w, q);
      if q != pid {
        OthersKeep(c, w, v, pid, q);
      }
    }
  }

  lemma {:induction false} CreateStep(c: Codec, w: World, pid: nat)
    requires Inv(c, w) && At(w, pid, Creating) && Temporary(pid) !in w.files.names
    ensures var v := Create(w, pid, true); Inv(c, v) && Keeps(c, w.files, v.files)
  {
    var v := Create(w, pid, true);
    assert Keeps(c, w.files, v.files);
    if Published in v.files.names {
      var a: Address :| Bound(c, w.files, a);
      assert Bound(c, v.files, a);
    }
    forall q | q in v.procs
      ensures ProcessOk(c, v, q)
    {
      assert ProcessOk(c, w, q);
      if q != pid {
        OthersKeep(c, w, v, pid, q);
      }
    }
  }

  lemma {:induction false} ExtendStep(c: Codec, w: World, pid: nat, count: nat, ok: bool)
    requires Inv(c, w)
    ensures var v := Extend(c, w, pid, count, ok); Inv(c, v) && Keeps(c, w.files, v.files)
  {
    var v := Extend(c, w, pid, count, ok);
    if v != w {
      assert ProcessOk(c, w, pid);
      assert Keeps(c, w.files, v.files);
      if Published in v.files.names {
        var a: Address :| Bound(c, w.files, a);
        assert Bound(c, v.files, a);
      }
      forall q | q in v.procs
        ensures ProcessOk(c, v, q)
      {
        assert ProcessOk(c, w, q);
        if q != pid {
          OthersKeep(c, w, v, pid, q);
        }
      }
    }
  }

  lemma {:induction false} LinkStep(c: Codec, w: World, pid: nat)
    requires Inv(c, w) && pid in w.procs && w.procs[pid].pc.Linking? && Published !in w.files.names
    ensures var v := Link(w, pid, true); Inv(c, v) && Keeps(c, w.files, v.files)
  {
    assert ProcessOk(c, w, pid);
    var v := Link(w, pid, true);
    assert Bound(c, v.files, w.procs[pid].address);
    forall q | q in v.procs
      ensures ProcessOk(c, v, q)
    {
      assert ProcessOk(c, w, q);
      if q != pid {
        OthersKeep(c, w, v, pid, q);
      }
    }
  }

  /** Steps that touch no file: what they leave in their own process is consistent. */
  lemma {:induction false} OwnStep(c: Codec, w: World, s: Step)
    requires RoundTrips(c) && Inv(c, w)
    requires s.Bind? || s.Fsync? || s.Reread? || s.SyncDir?
    ensures Inv(c, Next(c, w, s)) && Next(c, w, s).files == w.files
  {
    var v := Next(c, w, s);
    if v != w {
      assert ProcessOk(c, w, s.pid);
      if s.Reread? {
        ReadIsBound(c, w.files);
      }
      PureStep(c, w, v, s.pid);
    }
  }

  lemma {:induction false} LifeStep(c: Codec, w: World, s: Step)
    requires RoundTrips(c) && Inv(c, w)
    requires s.Spawn? || s.Kill?
    ensures Inv(c, Next(c, w, s)) && Next(c, w, s).files == w.files
  {
    var v := Next(c, w, s);
    ReadIsBound(c, w.files);
    if v != w {
      PureStep(c, w, v, s.pid);
    }
  }

  lemma {:induction false} RemoveStep(c: Codec, w: World, s: Step)
    requires Inv(c, w)
    requires s.RemoveStale? || s.RemoveTemporary?
    ensures Inv(c, Next(c, w, s)) && Keeps(c, w.files, Next(c, w, s).files)
  {
    var v := Next(c, w, s);
    if v != w {
      assert ProcessOk(c, w, s.pid);
      if s.ok {
        UnlinkStep(c, w, s.pid, v.procs[s.pid].pc);
      } else {
        PureStep(c, w, v, s.pid);
      }
    }
  }

  lemma {:induction false} MakeStep(c: Codec, w: World, s: Step)
    requires Inv(c, w)
    requires s.CreateNew? || s.HardLink?
    ensures Inv(c, Next(c, w, s)) && Keeps(c, w.files, Next(c, w, s).files)
  {
    var v := Next(c, w, s);
    if v != w {
      if v.files == w.files {
        PureStep(c, w, v, s.pid);
      } else if s.CreateNew? {
        CreateStep(c, w, s.pid);
      } else {
        LinkStep(c, w, s.pid);
      }
    }
  }

  lemma {:induction false} NextInv(c: Codec, w: World, s: Step)
    requires RoundTrips(c) && Inv(c, w)
    ensures Inv(c, Next(c, w, s)) && Keeps(c, w.files, Next(c, w, s).files)
  {
    if s.Append? {
      ExtendStep(c, w, s.pid, s.count, s.ok);
    } else if s.CreateNew? || s.HardLink? {
      MakeStep(c, w, s);
    } else if s.RemoveStale? || s.RemoveTemporary? {
      RemoveStep(c, w, s);
    } else if s.Spawn? || s.Kill? {
      LifeStep(c, w, s);
    } else {
      OwnStep(c, w, s);
    }
  }

  // -------------------- Runs --------------------

  function Run(c: Codec, w: World, steps: seq<Step>): World {
    if steps == [] then w else Next(c, Run(c, w, steps[..|steps| - 1]), steps[|steps| - 1])
  }

  /** An empty directory and no process. */
  function Start(): World {
    World(Files(map[], map[], 0), map[], {})
  }

  lemma {:induction false} RunInv(c: Codec, steps: seq<Step>)
    requires RoundTrips(c)
    ensures Inv(c, Run(c, Start(), steps))
    decreases |steps|
  {
    if steps == [] {
    } else {
      RunInv(c, steps[..|steps| - 1]);
      NextInv(c, Run(c, Start(), steps[..|steps| - 1]), steps[|steps| - 1]);
    }
  }

  lemma {:induction false} RunKeeps(c: Codec, steps: seq<Step>, n: nat)
    requires RoundTrips(c) && n <= |steps|
    ensures Keeps(c, Run(c, Start(), steps[..n]).files, Run(c, Start(), steps).files)
    decreases |steps|
  {
    if n == |steps| {
      assert steps[..n] == steps;
    } else {
      var front := steps[..|steps| - 1];
      RunKeeps(c, front, n);
      assert front[..n] == steps[..n];
      RunInv(c, front);
      NextInv(c, Run(c, Start(), front), steps[|steps| - 1]);
    }
  }

  /**
   In every interleaving, with kills anywhere and reused PIDs: the published file
   is absent or complete, whatever it holds at some point it holds from then on,
   and every successful call, in any process, returned the address it holds.
   */
  lemma {:induction false} WriteOnce(c: Codec, steps: seq<Step>, n: nat)
    requires RoundTrips(c) && n <= |steps|
    ensures var early, late := Run(c, Start(), steps[..n]), Run(c, Start(), steps);
            && (Published in late.files.names ==> exists a: Address :: Bound(c, late.files, a))
            && (forall a: Address :: Bound(c, early.files, a) ==> Bound(c, late.files, a))
            && (forall a :: a in late.returned ==> Bound(c, late.files, a))
            && (forall a, b :: a in late.returned && b in late.returned ==> a == b)
  {
    RunInv(c, steps);
    RunKeeps(c, steps, n);
    var late := Run(c, Start(), steps);
    forall a, b | a in late.returned && b in late.returned
      ensures a == b
    {
      BoundOnce(c, late.files, a, b);
    }
  }

  // -------------------- The object --------------------

  /** Which system calls of one `get_or_bind` fail, and how much a failing write leaves behind. */
  datatype Faults = Faults(
    removeStale: bool, create: bool, write: bool, written: nat, fsync: bool, link: bool, removeTemporary: bool,
    reread: bool, syncDir: bool)

  predicate Faultless(f: Faults) {
    !f.removeStale && !f.create && !f.write && !f.fsync && !f.link && !f.removeTemporary && !f.reread && !f.syncDir
  }

  /** One process: its view of the directory and the address it has cached. */
  class AddressFile {
    const codec: Codec
    const pid: nat
    var files: Files
    var guard: Option<Address>
    /** The run this process is part of: where it started, the steps since, and where it stands. */
    ghost var origin: World
    ghost var steps: seq<Step>
    ghost var world: World

    constructor (codec: Codec, pid: nat, w: World)
      requires At(w, pid, Idle)
      ensures Ready() && Traced() && this.codec == codec && this.pid == pid && world == w
    {
      this.codec, this.pid := codec, pid;
      files, guard := w.files, w.procs[pid].cached;
      origin, steps, world := w, [], w;
    }

    ghost predicate Traced()
      reads this
    {
      world == Run(codec, origin, steps)
    }

    /** The fields mirror the state of the run; the process stands at `pc`. */
    ghost predicate Mirrors(pc: Pc)
      reads this
    {
      && At(world, pid, pc)
      && files == world.files
      && guard == world.procs[pid].cached
    }

    ghost predicate Ready()
      reads this
    {
      Mirrors(Idle)
    }

    ghost predicate Binding(pc: Pc, address: Address)
      reads this
    {
      Mirrors(pc) && world.procs[pid].address == address
    }

    /** The process went on from where it was. */
    ghost predicate Continues(before: seq<Step>, traced: bool)
      reads this
    {
      before <= steps && (traced ==> Traced())
    }

    ghost method Take(s: Step)
      modifies this`steps, this`world
      ensures steps == old(steps) + [s] && world == Next(codec, old(world), s) && (old(Traced()) ==> Traced())
    {
      steps, world := steps + [s], Next(codec, world, s);
      assert steps[..|steps| - 1] == old(steps);
    }

    /** An earlier process that had this PID may have died before tidying up. */
    method RemoveStaleFile(address: Address, fault: bool)
      requires Binding(Cleaning, address)
      modifies this`files, this`steps, this`world
      ensures Binding(Creating, address) && Continues(old(steps), old(Traced()))
      ensures !fault ==> Temporary(pid) !in files.names
      ensures Published in files.names <==> Published in old(files).names
    {
      Take(RemoveStale(pid, !fault));
      if !fault {
        files := Unlink(files, Temporary(pid));
      }
    }

    method CreateFile(address: Address, fault: bool) returns (fd: Option<nat>)
      requires Binding(Creating, address)
      modifies this`files, this`steps, this`world
      ensures Binding(if fd.Some? then Writing(fd.value, 0) else Tidying(Failed), address)
              && Continues(old(steps), old(Traced()))
      ensures fd.Some? <==> !fault && Temporary(pid) !in old(files).names
      ensures fd.Some? ==> files.names == old(files).names[Temporary(pid) := fd.value]
    {
      Take(CreateNew(pid, !fault));
      if fault || Temporary(pid) in files.names {
        return None;
      }
      fd := Some(files.nextInode);
      files := Files(files.names[Temporary(pid) := files.nextInode], files.inodes[files.nextInode := ""],
                     files.nextInode + 1);
    }

    method WriteText(address: Address, fd: nat, fault: bool, written: nat) returns (ok: bool)
      requires Binding(Writing(fd, 0), address) && written <= |codec.text(address)|
      modifies this`files, this`steps, this`world
      ensures Binding(if ok then Writing(fd, |codec.text(address)|) else Tidying(Failed), address)
              && Continues(old(steps), old(Traced()))
      ensures ok == !fault && files.names == old(files).names
    {
      var text := codec.text(address);
      var count := if fault then written else |text|;
      ExtendEffect(codec, world, pid, count, !fault);
      Take(Append(pid, count, !fault));
      files := files.(inodes := files.inodes[fd := text[..count]]);
      ok := !fault;
    }

    method FsyncFile(address: Address, fd: nat, fault: bool) returns (ok: bool)
      requires Binding(Writing(fd, |codec.text(address)|), address)
      modifies this`steps, this`world
      ensures Binding(if ok then Linking(fd) else Tidying(Failed), address) && Continues(old(steps), old(Traced()))
      ensures ok == !fault
    {
      Take(Fsync(pid, !fault));
      ok := !fault;
    }

    method LinkFile(address: Address, fd: nat, fault: bool) returns (outcome: Outcome)
      requires Binding(Linking(fd), address)
      modifies this`files, this`steps, this`world
      ensures Binding(Tidying(outcome), address) && Continues(old(steps), old(Traced()))
      ensures outcome == (if fault then Failed else if Published in old(files).names then Exists
                          else if Temporary(pid) !in old(files).names then Failed else Linked)
    {
      Take(HardLink(pid, !fault));
      if fault {
        return Failed;
      }
      if Published in files.names {
        return Exists;
      }
      if Temporary(pid) !in files.names {
        return Failed;
      }
      files := files.(names := files.names[Published := files.names[Temporary(pid)]]);
      outcome := Linked;
    }

    /** Writes the address under the temporary name and links it to the published one. */
    method WriteAndLink(address: Address, faults: Faults) returns (outcome: Outcome)
      requires Binding(Creating, address) && faults.written <= |codec.text(address)|
      modifies this`files, this`steps, this`world
      ensures Binding(Tidying(outcome), address) && Continues(old(steps), old(Traced()))
      ensures Faultless(faults) && Temporary(pid) !in old(files).names ==>
                outcome == if Published in old(files).names then Exists else Linked
    {
      var fd := CreateFile(address, faults.create);
      if fd.None? {
        return Failed;
      }
      var wrote := WriteText(address, fd.value, faults.write, faults.written);
      if !wrote {
        return Failed;
      }
      var synced := FsyncFile(address, fd.value, faults.fsync);
      if !synced {
        return Failed;
      }
      outcome := LinkFile(address, fd.value, faults.link);
    }

    method RemoveTemporaryFile(address: Address, outcome: Outcome, fault: bool)
      requires Binding(Tidying(outcome), address)
      modifies this`files, this`steps, this`world
      ensures Binding(match outcome case Failed => Idle case Exists => Rereading case Linked => SyncingDir, address)
      ensures Continues(old(steps), old(Traced()))
    {
      TidyEffect(world, pid, !fault);
      Take(RemoveTemporary(pid, !fault));
      if !fault {
        files := Unlink(files, Temporary(pid));
      }
    }

    method RereadFile(fault: bool) returns (bound: Option<Address>)
      requires Mirrors(Rereading) && guard.None?
      modifies this`steps, this`world, this`guard
      ensures Ready() && bound == guard && Continues(old(steps), old(Traced()))
      ensures bound.Some? ==> bound.value in world.returned
    {
      Take(Reread(pid, !fault));
      var content := ReadPublished(codec, files);
      bound := if !fault && content.Holds? then Some(content.address) else None;
      guard := bound;
    }

    method SyncDirectory(address: Address, fault: bool) returns (bound: Option<Address>)
      requires Binding(SyncingDir, address) && guard.None?
      modifies this`steps, this`world, this`guard
      ensures Ready() && bound == guard && Continues(old(steps), old(Traced()))
      ensures bound == if fault then None else Some(address)
      ensures bound.Some? ==> bound.value in world.returned
    {
      Take(SyncDir(pid, !fault));
      bound := if fault then None else Some(address);
      guard := bound;
    }

    /** Publishes the address unless one is there already; `None` is an error. */
    method Publish(address: Address, faults: Faults) returns (bound: Option<Address>)
      requires Binding(Cleaning, address) && guard.None? && faults.written <= |codec.text(address)|
      modifies this`files, this`steps, this`world, this`guard
      ensures Ready() && bound == guard && Continues(old(steps), old(Traced()))
      ensures bound.Some? ==> bound.value in world.returned
      ensures Faultless(faults) && Published !in old(files).names ==> bound == Some(address)
    {
      RemoveStaleFile(address, faults.removeStale);
      var outcome := WriteAndLink(address, faults);
      RemoveTemporaryFile(address, outcome, faults.removeTemporary);
      match outcome {
        case Failed => bound := None;
        case Exists => bound := RereadFile(faults.reread);
        case Linked => bound := SyncDirectory(address, faults.syncDir);
      }
    }

    /** Answers from the cache when it can; otherwise the outcome of publishing `address` is kept there. */
    method GetOrBind(address: Address, faults: Faults) returns (bound: Option<Address>)
      requires Ready() && Traced() && faults.written <= |codec.text(address)|
      modifies this`files, this`steps, this`world, this`guard
      ensures Ready() && Traced() && (bound.Some? ==> bound == guard && bound.value in world.returned)
      ensures old(guard).Some? ==> bound == old(guard)
      ensures Faultless(faults) && old(guard).None? && Published !in old(files).names ==> bound == Some(address)
      ensures RoundTrips(codec) && Inv(codec, old(world)) ==>
                && Keeps(codec, old(files), files)
                && (bound.Some? ==> Bound(codec, files, bound.value))
    {
      ghost var before := world;
      ghost var taken := steps;
      Take(Bind(pid, address));
      if guard.Some? {
        bound := guard;
      } else {
        bound := Publish(address, faults);
      }
      if RoundTrips(codec) && Inv(codec, before) {
        Continued(codec, origin, taken, steps);
      }
    }
  }

  lemma {:induction false} ExtendEffect(c: Codec, w: World, pid: nat, count: nat, ok: bool)
    requires pid in w.procs && w.procs[pid].pc.Writing?
             && w.procs[pid].pc.done + count <= |c.text(w.procs[pid].address)|
    ensures var v := Extend(c, w, pid, count, ok);
            var pc := w.procs[pid].pc;
            && v.files == w.files.(inodes := w.files.inodes[pc.fd := c.text(w.procs[pid].address)[..pc.done + count]])
            && pid in v.procs
            && v.procs[pid] == w.procs[pid].(pc := if ok then Writing(pc.fd, pc.done + count) else Tidying(Failed))
  {
  }

  lemma {:induction false} TidyEffect(w: World, pid: nat, ok: bool)
    requires pid in w.procs && w.procs[pid].pc.Tidying?
    ensures var v := Tidy(w, pid, ok);
            && v.files == (if ok then Unlink(w.files, Temporary(pid)) else w.files)
            && pid in v.procs
            && v.procs[pid] == w.procs[pid].(pc := match w.procs[pid].pc.outcome
                                                   case Failed => Idle
                                                   case Exists => Rereading
                                                   case Linked => SyncingDir)
  {
  }

  /** From a consistent state on, every continuation is consistent and keeps what is published. */
  lemma {:induction false} Continued(c: Codec, w: World, first: seq<Step>, all: seq<Step>)
    requires RoundTrips(c) && first <= all && Inv(c, Run(c, w, first))
    ensures Inv(c, Run(c, w, all)) && Keeps(c, Run(c, w, first).files, Run(c, w, all).files)
    decreases |all|
  {
    if |first| < |all| {
      Continued(c, w, first, all[..|all| - 1]);
      NextInv(c, Run(c, w, all[..|all| - 1]), all[|all| - 1]);
    } else {
      assert first == all;
    }
  }
}
