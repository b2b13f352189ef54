/** The crash-safe file replacement under every durable record of the client.

    A directory is modelled below the level of one save: file data may be lost or torn
    until it is synced, a name may fall back to anything it was since the directory was
    last synced, and a directory that the save itself had to create may vanish with
    everything in it, because nobody syncs its parent.  `Write` is the save, one
    file-system call at a time; each call may succeed, fail or be the moment of the
    crash.  Its contract is the single step that the protocols above build on. */
module AtomicFile {
  import opened Wrappers

  /** What an observer can learn about one path: what a running process reads, and
      everything a restart after a power loss may read. */
  datatype File<T(==)> = File(visible: Option<T>, maybe: set<Option<T>>)

  datatype Outcome = Done | Failed | Crashed

  /** One save of `x`. */
  ghost predicate SaveStep<T>(f: File<T>, x: T, outcome: Outcome, g: File<T>) {
    match outcome
    case Done => g == File(Some(x), {Some(x)})
    case Failed => g == f || g == File(Some(x), f.maybe + {Some(x)})
    case Crashed => g == f || g == File(Some(x), f.maybe + {Some(x)}) || g == File(Some(x), {Some(x)})
  }

  /** One removal. */
  ghost predicate RemoveStep<T>(f: File<T>, outcome: Outcome, g: File<T>) {
    match outcome
    case Done => g == File(None, {None})
    case Failed => g == f || g == File(None, f.maybe + {None})
    case Crashed => g == f || g == File(None, f.maybe + {None}) || g == File(None, {None})
  }

  /** A power loss that leaves the directory. */
  ghost predicate PowerLossStep<T>(f: File<T>, g: File<T>) {
    exists survivor :: survivor in f.maybe && g == File(survivor, {survivor})
  }

  /** Every file-system call of the plan succeeds. */
  ghost predicate Smooth(plan: nat -> Outcome) {
    forall k :: plan(k).Done?
  }

  /** The directory's own name: not there; made, but its parent not synced since; or
      there to stay. */
  datatype Folder = Missing | Losable | Durable

  /** What making the directory, if it is missing, leaves. */
  function Made(folder: Folder): Folder {
    if folder.Missing? then Losable else folder
  }

  /** Any power loss; one whose directory is not durable may take it. */
  ghost predicate LossStep<T>(durable: bool, f: File<T>, g: File<T>) {
    PowerLossStep(f, g) || (!durable && g == File(None, {None}))
  }

  /** Old or new, never anything else: what any sequence of one save and one power
      loss, at any point of the save, leaves to read, unless the directory goes. */
  lemma OldOrNew<T>(durable: bool, f: File<T>, x: T, outcome: Outcome, g: File<T>, h: File<T>)
    requires f.visible in f.maybe && SaveStep(f, x, outcome, g) && LossStep(durable, g, h)
    ensures g.visible == f.visible || g.visible == Some(x)
    ensures h.visible in f.maybe || h.visible == Some(x) || (!durable && h.visible == None)
    ensures outcome.Done? ==> g.visible == Some(x)
  {
  }

  /** A successful save is durable exactly if the directory was, before it. */
  lemma SurvivesIffDurable<T>(folder: Folder, f: File<T>, x: T, g: File<T>)
    requires SaveStep(f, x, Done, g)
    ensures (forall h | LossStep(Made(folder).Durable?, g, h) :: h.visible == Some(x)) <==> folder.Durable?
  {
    if !folder.Durable? {
      assert LossStep(Made(folder).Durable?, g, File(None, {None}));
    }
  }

  /** The failing input: the first save in a directory that it has to make succeeds, and a
      power loss leaves nothing. */
  lemma FirstSaveLost<T>(x: T)
    ensures exists g, h ::
      SaveStep(File(None, {None}), x, Done, g) && LossStep(Made(Missing).Durable?, g, h) && h.visible == None
  {
    assert LossStep(Made(Missing).Durable?, File(Some(x), {Some(x)}), File(None, {None}));
  }

  type Name = nat
  type Inode = nat

  /** File data; `Torn` stands for whatever an unsynced write may leave. */
  datatype Data<T> = Torn | Whole(value: T)

  /** The state of one directory: `synced` inodes hold data that survives a power loss,
      and `durable` gives the bindings each name may have after one. */
  datatype Disk<T> = Disk(
    folder: Folder,
    data: map<Inode, Data<T>>,
    synced: set<Inode>,
    names: map<Name, Inode>,
    durable: map<Name, set<Option<Inode>>>,
    nextInode: Inode)
  {
    ghost predicate Valid() {
      && (forall i | i in data :: i < nextInode)
      && (forall i | i in synced :: i in data)
      && (forall n | n in names :: n in durable)
      && (forall n | n in durable :: (if n in names then Some(names[n]) else None) in durable[n])
      && (folder.Missing? ==> names == map[] && durable == map[])
    }

    function Binding(n: Name): Option<Inode> {
      if n in names then Some(names[n]) else None
    }

    function Bindings(n: Name): set<Option<Inode>> {
      if n in durable then durable[n] else {None}
    }

    predicate Solid(o: Option<Inode>) {
      o.Some? ==> o.value in synced && o.value in data && data[o.value].Whole?
    }

    /** Everything the path is or may become holds whole data that survives. */
    ghost predicate Clean(n: Name) {
      Solid(Binding(n)) && forall o | o in Bindings(n) :: Solid(o)
    }

    function Read(o: Option<Inode>): Option<T>
      requires Solid(o)
    {
      match o
      case None => None
      case Some(i) => Some(data[i].value)
    }

    ghost function View(n: Name): File<T>
      requires Clean(n)
    {
      File(Read(Binding(n)), set o | o in Bindings(n) :: Read(o))
    }

    /** Binds `n` in memory now and on disk at some later time. */
    function Bind(n: Name, o: Option<Inode>): Disk<T> {
      this.(durable := durable[n := Bindings(n) + {o}],
            names := if o.Some? then names[n := o.value] else names - {n})
    }

    /** Makes every current binding the only one. */
    function SyncDir(): Disk<T> {
      this.(durable := map n | n in durable :: {Binding(n)})
    }
  }

  /** Solid data does not change under `d` to `e`. */
  ghost predicate Keeps<T>(d: Disk<T>, e: Disk<T>) {
    forall o | d.Solid(o) :: e.Solid(o) && e.Read(o) == d.Read(o)
  }

  lemma SameView<T>(d: Disk<T>, e: Disk<T>, n: Name)
    requires Keeps(d, e) && d.Clean(n) && e.Binding(n) == d.Binding(n) && e.Bindings(n) == d.Bindings(n)
    ensures e.Clean(n) && e.View(n) == d.View(n)
  {
  }

  lemma BindView<T>(d: Disk<T>, n: Name, o: Option<Inode>)
    requires d.Valid() && !d.folder.Missing?
    ensures var e := d.Bind(n, o);
      && e.Valid() && e.folder == d.folder
      && (d.Clean(n) && d.Solid(o) ==> e.Clean(n) && e.View(n) == File(d.Read(o), d.View(n).maybe + {d.Read(o)}))
      && (forall m | m != n && d.Clean(m) :: e.Clean(m) && e.View(m) == d.View(m))
  {
    var e := d.Bind(n, o);
    forall m | m != n && d.Clean(m) ensures e.Clean(m) && e.View(m) == d.View(m) {
      SameView(d, e, m);
    }
    if d.Clean(n) && d.Solid(o) {
      assert e.Bindings(n) == d.Bindings(n) + {o} && e.Binding(n) == o;
      assert e.View(n).maybe == d.View(n).maybe + {d.Read(o)};
    }
  }

  /** What the directory sync leaves of a path: what a reader sees, and nothing else. */
  ghost function Settled<T>(f: File<T>): File<T> {
    File(f.visible, {f.visible})
  }

  lemma SyncDirView<T>(d: Disk<T>)
    requires d.Valid()
    ensures d.SyncDir().Valid()
    ensures forall n | d.Clean(n) :: d.SyncDir().Clean(n) && d.SyncDir().View(n) == Settled(d.View(n))
  {
    var e := d.SyncDir();
    forall n ensures e.Binding(n) == d.Binding(n) && e.Bindings(n) == {d.Binding(n)} {
      assert d.Binding(n) in d.Bindings(n);
    }
    forall n | d.Clean(n) ensures e.Clean(n) && e.View(n) == Settled(d.View(n)) {
      assert e.View(n).maybe == {d.Read(d.Binding(n))};
    }
  }

  lemma {:induction false} Unused(used: set<nat>) returns (n: nat)
    ensures forall x | x in used :: x < n
    decreases |used|
  {
    n := 0;
    if used != {} {
      var x :| x in used;
      var m := Unused(used - {x});
      n := if m <= x then x + 1 else m;
      assert forall y | y in used :: y == x || y in used - {x};
    }
  }

  /** What a step may do to a path it is not about: nothing, or settle it. */
  ghost predicate Beside<T>(d: Disk<T>, e: Disk<T>, n: Name) {
    d.Clean(n) ==> e.Clean(n) && (e.View(n) == d.View(n) || e.View(n) == Settled(d.View(n)))
  }

  /** A directory in which the paths of `reserved` belong to the client's records; temporary
      files have other names. */
  class Directory<T> {
    const reserved: set<Name>
    var disk: Disk<T>

    constructor (reserved: set<Name>, folder: Folder)
      ensures disk.Valid() && disk.folder == folder && this.reserved == reserved
      ensures forall n :: disk.Clean(n) && disk.View(n) == File(None, {None})
    {
      this.reserved := reserved;
      disk := Disk(folder, map[], {}, map[], map[], 0);
      new;
      EmptyViews(disk);
    }

    method Load(path: Name) returns (r: Option<T>)
      requires disk.Clean(path)
      ensures r == disk.View(path).visible
    {
      r := disk.Read(disk.Binding(path));
    }

    /** The save: make the directory if need be, write a temporary file, sync it, rename it
        over `path`, sync the directory.  `plan(k)` decides the `k`-th file-system call.  No
        other record loses anything, though the directory sync may settle what it holds. */
    method Write(path: Name, x: T, plan: nat -> Outcome) returns (outcome: Outcome)
      requires disk.Valid() && disk.Clean(path) && path in reserved
      modifies this`disk
      ensures disk.Valid() && disk.Clean(path)
      ensures SaveStep(old(disk.View(path)), x, outcome, disk.View(path))
      ensures disk.folder == Made(old(disk.folder)) || (disk.folder == old(disk.folder) && !outcome.Done?)
      ensures outcome.Done? <==> (forall k | 0 <= k <= 7 :: plan(k).Done?) && !plan(8).Crashed?
      ensures outcome.Crashed? ==> exists k :: plan(k).Crashed?
      ensures outcome.Done? || (outcome.Failed? && plan(9).Done?) ==>
        forall n | n in disk.names :: n == path || n in old(disk.names)
      ensures forall n | n != path && n in reserved :: Beside(old(disk), disk, n)
    {
      if !plan(0).Done? {
        return plan(0);
      }
      MakeFolder();
      outcome := Replace(path, x, plan);
    }

    /** The save once the directory is there. */
    method Replace(path: Name, x: T, plan: nat -> Outcome) returns (outcome: Outcome)
      requires disk.Valid() && disk.Clean(path) && path in reserved && !disk.folder.Missing?
      modifies this`disk
      ensures disk.Valid() && disk.Clean(path) && disk.folder == old(disk.folder)
      ensures SaveStep(old(disk.View(path)), x, outcome, disk.View(path))
      ensures outcome.Done? <==> (forall k | 1 <= k <= 7 :: plan(k).Done?) && !plan(8).Crashed?
      ensures outcome.Crashed? ==> exists k :: plan(k).Crashed?
      ensures outcome.Done? || (outcome.Failed? && plan(9).Done?) ==>
        forall n | n in disk.names :: n == path || n in old(disk.names)
      ensures forall n | n != path && n in reserved :: Beside(old(disk), disk, n)
    {
      hide Disk.Valid, Disk.Clean, Disk.View, Disk.Solid;
      if !plan(1).Done? {                 // create the temporary file
        return plan(1);
      }
      ghost var before := disk;
      var tmp := TempName();
      var i := CreateTemp(tmp);
      outcome := WriteTemp(i, x, plan);
      ghost var written := disk;
      if outcome.Done? {
        outcome := Publish(path, i, x, tmp, plan);
      }
      ghost var published := disk;
      if outcome.Failed? && plan(9).Done? {
        CleanUp(tmp);
      }
      forall n | n != path && n in reserved ensures Beside(before, disk, n) {
        assert before.Clean(n) ==> written.Clean(n) && written.View(n) == before.View(n);
        assert Beside(written, published, n);
      }
    }

    /** The deferred removal of the temporary file. */
    method CleanUp(tmp: Name)
      requires disk.Valid() && !disk.folder.Missing?
      modifies this`disk
      ensures disk.Valid() && disk.folder == old(disk.folder)
      ensures disk.names == old(disk.names) - {tmp}
      ensures forall n | n != tmp && old(disk).Clean(n) :: disk.Clean(n) && disk.View(n) == old(disk).View(n)
    {
      if tmp in disk.names {
        BindView(disk, tmp, None);
        disk := disk.Bind(tmp, None);
      }
    }

    /** Makes the directory if it is not there; its parent is not synced. */
    method MakeFolder()
      requires disk.Valid()
      modifies this`disk
      ensures disk.Valid() && disk.folder == Made(old(disk.folder))
      ensures forall n | old(disk).Clean(n) :: disk.Clean(n) && disk.View(n) == old(disk).View(n)
      ensures disk.names == old(disk).names
    {
      ghost var before := disk;
      disk := disk.(folder := Made(disk.folder));
      forall n | before.Clean(n) ensures disk.Clean(n) && disk.View(n) == before.View(n) {
        SameView(before, disk, n);
      }
    }

    /** A name that no file and no record has. */
    method TempName() returns (tmp: Name)
      ensures tmp !in disk.names && tmp !in reserved
    {
      ghost var free := Unused(disk.names.Keys + reserved);
      assert free !in disk.names && free !in reserved;
      tmp :| tmp !in disk.names && tmp !in reserved;
    }

    method CreateTemp(tmp: Name) returns (i: Inode)
      requires disk.Valid() && tmp !in disk.names && !disk.folder.Missing?
      modifies this`disk
      ensures disk.Valid() && disk.folder == old(disk.folder) && i in disk.data && i !in disk.synced
      ensures disk.names == old(disk.names)[tmp := i]
      ensures forall n | n != tmp && old(disk).Clean(n) :: disk.Clean(n) && disk.View(n) == old(disk).View(n)
    {
      i := disk.nextInode;
      var made := disk.(nextInode := i + 1, data := disk.data[i := Torn]);
      forall n | disk.Clean(n) ensures made.Clean(n) && made.View(n) == disk.View(n) {
        SameView(disk, made, n);
      }
      BindView(made, tmp, Some(i));
      disk := made.Bind(tmp, Some(i));
    }

    /** Restrict permissions, write, sync and close the temporary file. */
    method WriteTemp(i: Inode, x: T, plan: nat -> Outcome) returns (outcome: Outcome)
      requires disk.Valid() && i in disk.data && i !in disk.synced
      modifies this`disk
      ensures disk.Valid() && disk.folder == old(disk.folder)
      ensures disk.names == old(disk.names)
      ensures outcome.Done? <==> forall k | 2 <= k <= 5 :: plan(k).Done?
      ensures outcome.Crashed? ==> exists k :: plan(k).Crashed?
      ensures outcome.Done? ==> disk.Solid(Some(i)) && disk.Read(Some(i)) == Some(x)
      ensures forall n | old(disk).Clean(n) :: disk.Clean(n) && disk.View(n) == old(disk).View(n)
    {
      ghost var before := disk;
      outcome := plan(2);
      if outcome.Done? {
        outcome := plan(3);
        if outcome.Done? {                // a failed write may leave part of the data
          disk := disk.(data := disk.data[i := Whole(x)]);
          outcome := plan(4);
          if outcome.Done? {
            disk := disk.(synced := disk.synced + {i});
            outcome := plan(5);
          }
        }
      }
      forall n | before.Clean(n) ensures disk.Clean(n) && disk.View(n) == before.View(n) {
        SameView(before, disk, n);
      }
    }

    /** Rename over the path, then sync the directory; a crash may still follow. */
    method Publish(path: Name, i: Inode, x: T, tmp: Name, plan: nat -> Outcome) returns (outcome: Outcome)
      requires disk.Valid() && disk.Clean(path) && tmp != path && !disk.folder.Missing?
      requires disk.Solid(Some(i)) && disk.Read(Some(i)) == Some(x)
      modifies this`disk
      ensures disk.Valid() && disk.Clean(path) && disk.folder == old(disk.folder)
      ensures SaveStep(old(disk.View(path)), x, outcome, disk.View(path))
      ensures outcome.Done? <==> plan(6).Done? && plan(7).Done? && !plan(8).Crashed?
      ensures outcome.Crashed? ==> exists k :: plan(k).Crashed?
      ensures forall n | n in disk.names :: n == path || n in old(disk.names)
      ensures outcome.Done? ==> tmp !in disk.names
      ensures forall n | n != path && n != tmp :: Beside(old(disk), disk, n)
    {
      if !plan(6).Done? {
        return plan(6);
      }
      BindView(disk, path, Some(i));
      disk := disk.Bind(path, Some(i));
      BindView(disk, tmp, None);
      disk := disk.Bind(tmp, None);
      if !plan(7).Done? {
        return plan(7);
      }
      SyncDirView(disk);
      disk := disk.SyncDir();
      outcome := if plan(8).Crashed? then Crashed else Done;
    }

    /** Unlink, then sync the directory; a path that is not there still gets the sync, which
        needs the directory. */
    method Remove(path: Name, plan: nat -> Outcome) returns (outcome: Outcome)
      requires disk.Valid() && disk.Clean(path) && path in reserved
      modifies this`disk
      ensures disk.Valid() && disk.Clean(path) && disk.folder == old(disk.folder)
      ensures RemoveStep(old(disk.View(path)), outcome, disk.View(path))
      ensures outcome.Done? <==> plan(0).Done? && !old(disk.folder).Missing? && plan(1).Done? && !plan(2).Crashed?
      ensures forall n | n != path && n in reserved :: Beside(old(disk), disk, n)
    {
      if !plan(0).Done? {
        return plan(0);
      }
      if disk.folder.Missing? {
        return Failed;
      }
      if path in disk.names {
        BindView(disk, path, None);
        disk := disk.Bind(path, None);
      }
      if !plan(1).Done? {
        return plan(1);
      }
      SyncDirView(disk);
      disk := disk.SyncDir();
      outcome := if plan(2).Crashed? then Crashed else Done;
    }

    /** A power loss.  If the directory stays, every name falls back to one of its possible
        bindings and all data that was not synced is torn; what stayed is there to stay. */
    method PowerLoss(stays: bool, survivor: Name -> Option<Inode>)
      requires disk.Valid() && (stays || !disk.folder.Durable?) && forall n :: survivor(n) in disk.Bindings(n)
      modifies this`disk
      ensures disk.Valid()
      ensures disk.folder == if stays && !old(disk.folder).Missing? then Durable else Missing
      ensures stays ==> forall n :: disk.Binding(n) == survivor(n) && disk.Bindings(n) == {survivor(n)}
      ensures stays ==> forall i | i in disk.data && i !in disk.synced :: disk.data[i].Torn?
      ensures forall n | old(disk).Clean(n) :: disk.Clean(n) &&
                if stays then PowerLossStep(old(disk).View(n), disk.View(n)) else disk.View(n) == File(None, {None})
    {
      if stays {
        ghost var before := disk;
        disk := disk.(
          folder := if disk.folder.Missing? then Missing else Durable,
          data := map i | i in disk.data :: if i in disk.synced then disk.data[i] else Torn,
          names := map n | n in disk.durable && survivor(n).Some? :: survivor(n).value,
          durable := map n | n in disk.durable :: {survivor(n)});
        Survivors(before, disk, survivor);
      } else {
        disk := Disk(Missing, map[], {}, map[], map[], disk.nextInode);
        EmptyViews(disk);
      }
    }
  }

  lemma EmptyViews<T>(d: Disk<T>)
    requires d.names == map[] && d.durable == map[]
    ensures forall n :: d.Clean(n) && d.View(n) == File(None, {None})
  {
    forall n ensures d.Clean(n) && d.View(n) == File(None, {None}) {
      assert d.View(n).maybe == {None};
    }
  }

  lemma Survivors<T>(d: Disk<T>, e: Disk<T>, survivor: Name -> Option<Inode>)
    requires d.Valid() && forall n :: survivor(n) in d.Bindings(n)
    requires e.names == map n | n in d.durable && survivor(n).Some? :: survivor(n).value
    requires e.durable == map n | n in d.durable :: {survivor(n)}
    requires e.data == map i | i in d.data :: if i in d.synced then d.data[i] else Torn
    requires e.synced == d.synced
    ensures forall n | d.Clean(n) :: e.Clean(n) && PowerLossStep(d.View(n), e.View(n))
  {
    forall n | d.Clean(n) ensures e.Clean(n) && PowerLossStep(d.View(n), e.View(n)) {
      var o := survivor(n);
      assert d.Solid(o) && e.Binding(n) == o && e.Bindings(n) == {o};
      assert e.View(n).maybe == {d.Read(o)};
      assert d.Read(o) in d.View(n).maybe;
    }
  }

  // ---------------------------------------------------------------- decoding

  /** A path as seen through decoding each of its possible contents. */
  ghost function Image<T, U>(f: File<T>, decode: T -> U): File<U> {
    File(Decoded(f.visible, decode), set o | o in f.maybe :: Decoded(o, decode))
  }

  function Decoded<T, U>(o: Option<T>, decode: T -> U): Option<U> {
    if o.Some? then Some(decode(o.value)) else None
  }

  lemma ImageSave<T, U>(f: File<T>, x: T, outcome: Outcome, g: File<T>, decode: T -> U)
    requires SaveStep(f, x, outcome, g)
    ensures SaveStep(Image(f, decode), decode(x), outcome, Image(g, decode))
  {
    assert Image(File(Some(x), {Some(x)}), decode).maybe == {Some(decode(x))};
    assert Image(File(Some(x), f.maybe + {Some(x)}), decode).maybe == Image(f, decode).maybe + {Some(decode(x))};
  }

  lemma ImageRemove<T, U>(f: File<T>, outcome: Outcome, g: File<T>, decode: T -> U)
    requires RemoveStep(f, outcome, g)
    ensures RemoveStep(Image(f, decode), outcome, Image(g, decode))
  {
    var none: Option<T> := None;
    assert Image(File(none, {none}), decode).maybe == {None};
    assert Image(File(none, f.maybe + {none}), decode).maybe == Image(f, decode).maybe + {None};
  }

  lemma ImageBeside<T, U>(d: Disk<T>, e: Disk<T>, n: Name, decode: T -> U)
    requires d.Clean(n) && Beside(d, e, n)
    ensures e.Clean(n)
    ensures Image(e.View(n), decode) == Image(d.View(n), decode) ||
            Image(e.View(n), decode) == Settled(Image(d.View(n), decode))
  {
    var f := d.View(n);
    assert Image(Settled(f), decode).maybe == {Decoded(f.visible, decode)};
  }

  lemma ImagePowerLoss<T, U>(f: File<T>, g: File<T>, decode: T -> U)
    requires PowerLossStep(f, g)
    ensures PowerLossStep(Image(f, decode), Image(g, decode))
  {
    var o :| o in f.maybe && g == File(o, {o});
    assert Decoded(o, decode) in Image(f, decode).maybe;
    assert Image(g, decode).maybe == {Decoded(o, decode)};
  }

  lemma ImageEmpty<T, U>(decode: T -> U)
    ensures Image(File(None, {None}), decode) == File(None, {None})
  {
    var none: Option<T> := None;
    assert Image(File(none, {none}), decode).maybe == {None};
  }
}
