/** Evicted blocks kept in host memory and, past a cap, on disk (crates/vapi-cache/src/spill.rs).

    The disk is a map from hash to file contents. Whether a file operation succeeds is not the store's to decide:
    removing and reading take an arbitrary outcome, and which blocks can be written is a parameter. */
module SpillStores {
  import opened Prelude
  import opened Hashing

  type Bytes = seq<byte>

  // ------------------------------------------------------------------ sums

  /** Total size of the entries a list names. */
  function Sum(sizes: map<BlockHash, nat>, lru: seq<BlockHash>): nat {
    if lru == [] then 0 else (if lru[0] in sizes then sizes[lru[0]] else 0) + Sum(sizes, lru[1..])
  }

  function Sizes(entries: map<BlockHash, Bytes>): map<BlockHash, nat> {
    map h | h in entries :: |entries[h]|
  }

  lemma {:induction false} SumAppend(sizes: map<BlockHash, nat>, a: seq<BlockHash>, b: seq<BlockHash>)
    ensures Sum(sizes, a + b) == Sum(sizes, a) + Sum(sizes, b)
  {
    if a == [] {
      assert a + b == b;
    } else {
      assert (a + b)[1..] == a[1..] + b;
      SumAppend(sizes, a[1..], b);
    }
  }

  lemma {:induction false} SumFrame(s: map<BlockHash, nat>, t: map<BlockHash, nat>, lru: seq<BlockHash>)
    requires forall h :: h in lru ==> (h in s <==> h in t) && (h in s ==> s[h] == t[h])
    ensures Sum(s, lru) == Sum(t, lru)
  {
    if lru != [] {
      assert lru[0] in lru;
      SumFrame(s, t, lru[1..]);
    }
  }

  lemma {:induction false} SumWithout(sizes: map<BlockHash, nat>, lru: seq<BlockHash>, h: BlockHash)
    requires NoDup(lru) && h in lru && h in sizes
    ensures Sum(sizes, Without(lru, h)) + sizes[h] == Sum(sizes, lru)
  {
    assert lru == [lru[0]] + lru[1..];
    assert lru[0] !in lru[1..];
    if lru[0] == h {
      WithoutAbsent(lru[1..], h);
    } else {
      SumWithout(sizes, lru[1..], h);
    }
  }

  // ------------------------------------------------------------------ tiers

  /** A tier's list names each of its entries once, and its counter is their total size, within its cap. */
  ghost predicate TierOk(sizes: map<BlockHash, nat>, lru: seq<BlockHash>, bytes: nat) {
    NoDup(lru) && (forall h :: h in lru <==> h in sizes) && bytes == Sum(sizes, lru)
  }

  lemma TierPush(sizes: map<BlockHash, nat>, lru: seq<BlockHash>, bytes: nat, h: BlockHash, n: nat)
    requires TierOk(sizes, lru, bytes) && h !in sizes
    ensures TierOk(sizes[h := n], lru + [h], bytes + n)
  {
    NoDupAppend(lru, h);
    SumAppend(sizes[h := n], lru, [h]);
    SumFrame(sizes, sizes[h := n], lru);
    assert Sum(sizes[h := n], [h]) == n by {
      assert [h][1..] == [];
    }
  }

  lemma TierPop(sizes: map<BlockHash, nat>, lru: seq<BlockHash>, bytes: nat)
    requires TierOk(sizes, lru, bytes) && lru != []
    ensures lru[0] in sizes && bytes >= sizes[lru[0]] && TierOk(sizes - {lru[0]}, lru[1..], bytes - sizes[lru[0]])
  {
    assert lru == [lru[0]] + lru[1..];
    assert lru[0] in lru && lru[0] !in lru[1..];
    SumFrame(sizes, sizes - {lru[0]}, lru[1..]);
  }

  lemma TierDrop(sizes: map<BlockHash, nat>, lru: seq<BlockHash>, bytes: nat, h: BlockHash)
    requires TierOk(sizes, lru, bytes) && h in sizes
    ensures bytes >= sizes[h] && TierOk(sizes - {h}, Without(lru, h), bytes - sizes[h])
  {
    SumWithout(sizes, lru, h);
    WithoutMembers(lru, h);
    WithoutNoDup(lru, h);
    SumFrame(sizes, sizes - {h}, Without(lru, h));
  }

  lemma TierTouch(sizes: map<BlockHash, nat>, lru: seq<BlockHash>, bytes: nat, h: BlockHash)
    requires TierOk(sizes, lru, bytes) && h in sizes
    ensures TierOk(sizes, Without(lru, h) + [h], bytes)
  {
    TierDrop(sizes, lru, bytes, h);
    TierPush(sizes - {h}, Without(lru, h), bytes - sizes[h], h, sizes[h]);
    assert (sizes - {h})[h := sizes[h]] == sizes;
  }

  lemma SizesPush(entries: map<BlockHash, Bytes>, h: BlockHash, bytes: Bytes)
    ensures Sizes(entries[h := bytes]) == Sizes(entries)[h := |bytes|]
  {}

  lemma SizesDrop(entries: map<BlockHash, Bytes>, h: BlockHash)
    ensures Sizes(entries - {h}) == Sizes(entries) - {h}
  {}

  // ------------------------------------------------------------------ the store

  /** `part` says nothing `whole` does not. */
  ghost predicate Within(part: map<BlockHash, Bytes>, whole: map<BlockHash, Bytes>) {
    forall h :: h in part ==> h in whole && part[h] == whole[h]
  }

  lemma WithinTwice(a: map<BlockHash, Bytes>, b: map<BlockHash, Bytes>, c: map<BlockHash, Bytes>)
    requires Within(a, b) && Within(b, c)
    ensures Within(a, c)
  {}

  /** The store's fields as a value. */
  datatype Store = Store(
    ram: map<BlockHash, Bytes>,
    ramLru: seq<BlockHash>,
    ramBytes: nat,
    hasDir: bool,
    disk: map<BlockHash, nat>,
    diskLru: seq<BlockHash>,
    diskBytes: nat,
    files: map<BlockHash, Bytes>)

  /** What the store would answer, if every read succeeds: a plain map. */
  function Held(s: Store): map<BlockHash, Bytes> {
    map h | h in s.ram.Keys + s.disk.Keys :: if h in s.ram then s.ram[h] else if h in s.files then s.files[h] else []
  }

  /** Every disk entry has its file, under the right length, and is not in memory as well. */
  ghost predicate DiskOk(s: Store) {
    (forall h :: h in s.ram ==> h !in s.disk)
    && (forall h :: h in s.disk ==> h in s.files && |s.files[h]| == s.disk[h])
    && (!s.hasDir ==> s.disk == map[])
  }

  ghost predicate Consistent(s: Store) {
    TierOk(Sizes(s.ram), s.ramLru, s.ramBytes) && TierOk(s.disk, s.diskLru, s.diskBytes) && DiskOk(s)
  }

  // ------------------------------------------------------------ small changes

  lemma ConsistentParts(s: Store)
    requires Consistent(s)
    ensures TierOk(Sizes(s.ram), s.ramLru, s.ramBytes) && TierOk(s.disk, s.diskLru, s.diskBytes) && DiskOk(s)
  {
    hide TierOk, DiskOk;
  }

  lemma ConsistentMade(s: Store)
    requires TierOk(Sizes(s.ram), s.ramLru, s.ramBytes) && TierOk(s.disk, s.diskLru, s.diskBytes) && DiskOk(s)
    ensures Consistent(s)
  {
    hide TierOk, DiskOk;
  }

  lemma HeldAt(s: Store, h: BlockHash)
    ensures h in Held(s) <==> h in s.ram || h in s.disk
    ensures h in s.ram ==> Held(s)[h] == s.ram[h]
    ensures h !in s.ram && h in s.disk && h in s.files ==> Held(s)[h] == s.files[h]
  {}

  lemma SizesAt(entries: map<BlockHash, Bytes>, h: BlockHash)
    ensures h in Sizes(entries) <==> h in entries
    ensures h in entries ==> Sizes(entries)[h] == |entries[h]|
  {}

  function PopDisk(s: Store): Store
    requires s.diskLru != []
  {
    var h := s.diskLru[0];
    s.(diskLru := s.diskLru[1..], files := s.files - {h}, disk := s.disk - {h},
       diskBytes := if h in s.disk && s.disk[h] <= s.diskBytes then s.diskBytes - s.disk[h] else s.diskBytes)
  }

  lemma PopDiskFiles(s: Store, t: Store, h: BlockHash)
    requires DiskOk(s) && t == s.(diskLru := t.diskLru, diskBytes := t.diskBytes, files := s.files - {h}, disk := s.disk - {h}) && h !in s.ram
    ensures DiskOk(t) && Within(Held(t), Held(s))
  {}

  lemma DiskNotRam(s: Store, h: BlockHash)
    requires DiskOk(s)
    ensures h in s.disk ==> h !in s.ram && h in s.files && |s.files[h]| == s.disk[h] && s.hasDir
  {}

  lemma PopDiskOk(s: Store)
    requires Consistent(s) && s.diskLru != []
    ensures s.diskLru[0] in s.disk && s.disk[s.diskLru[0]] <= s.diskBytes && s.diskLru[0] in s.files
    ensures Consistent(PopDisk(s)) && Within(Held(PopDisk(s)), Held(s))
  {
    hide *;
    ConsistentParts(s);
    TierPop(s.disk, s.diskLru, s.diskBytes);
    var h := s.diskLru[0];
    DiskNotRam(s, h);
    PopDiskIs(s, s.(diskLru := s.diskLru[1..], files := s.files - {h}, diskBytes := s.diskBytes - s.disk[h], disk := s.disk - {h}));
    PopDiskFiles(s, PopDisk(s), h);
    ConsistentMade(PopDisk(s));
  }

  function PopRam(s: Store): Store
    requires s.ramLru != []
  {
    var h := s.ramLru[0];
    s.(ramLru := s.ramLru[1..], ram := s.ram - {h},
       ramBytes := if h in s.ram && |s.ram[h]| <= s.ramBytes then s.ramBytes - |s.ram[h]| else s.ramBytes)
  }

  lemma PopRamFiles(s: Store, t: Store, h: BlockHash)
    requires DiskOk(s) && h in s.ram && t == s.(ramLru := t.ramLru, ramBytes := t.ramBytes, ram := s.ram - {h})
    ensures DiskOk(t) && Within(Held(t), Held(s)) && h !in s.disk
  {}

  lemma PopRamOk(s: Store)
    requires Consistent(s) && s.ramLru != []
    ensures s.ramLru[0] in s.ram && |s.ram[s.ramLru[0]]| <= s.ramBytes && s.ramLru[0] !in s.disk
    ensures Consistent(PopRam(s)) && Within(Held(PopRam(s)), Held(s)) && s.ramLru[0] in Held(s) && Held(s)[s.ramLru[0]] == s.ram[s.ramLru[0]]
  {
    hide *;
    ConsistentParts(s);
    TierPop(Sizes(s.ram), s.ramLru, s.ramBytes);
    var h := s.ramLru[0];
    SizesAt(s.ram, h);
    SizesDrop(s.ram, h);
    HeldAt(s, h);
    PopRamIs(s, s.(ramLru := s.ramLru[1..], ram := s.ram - {h}, ramBytes := s.ramBytes - |s.ram[h]|));
    PopRamFiles(s, PopRam(s), h);
    ConsistentMade(PopRam(s));
  }

  function AddDisk(s: Store, h: BlockHash, bytes: Bytes): Store {
    s.(files := s.files[h := bytes], diskBytes := s.diskBytes + |bytes|, disk := s.disk[h := |bytes|], diskLru := s.diskLru + [h])
  }

  lemma AddDiskFiles(s: Store, h: BlockHash, bytes: Bytes)
    requires DiskOk(s) && s.hasDir && h !in s.ram && h !in s.disk
    ensures DiskOk(AddDisk(s, h, bytes)) && Held(AddDisk(s, h, bytes)) == Held(s)[h := bytes]
  {}

  lemma AddDiskOk(s: Store, h: BlockHash, bytes: Bytes)
    requires Consistent(s) && s.hasDir && h !in s.ram && h !in s.disk
    ensures Consistent(AddDisk(s, h, bytes)) && Held(AddDisk(s, h, bytes)) == Held(s)[h := bytes]
  {
    hide *;
    ConsistentParts(s);
    TierPush(s.disk, s.diskLru, s.diskBytes, h, |bytes|);
    AddDiskFiles(s, h, bytes);
    AddDiskIs(s, h, bytes, s.(files := s.files[h := bytes], diskBytes := s.diskBytes + |bytes|, disk := s.disk[h := |bytes|], diskLru := s.diskLru + [h]));
    ConsistentMade(AddDisk(s, h, bytes));
  }

  /** A failed write may leave anything under a name the store does not index. */
  lemma StrayFileOk(s: Store, h: BlockHash, rest: Bytes)
    requires Consistent(s) && h !in s.disk
    ensures Consistent(s.(files := s.files[h := rest])) && Held(s.(files := s.files[h := rest])) == Held(s)
  {
    hide TierOk;
  }

  function AddRam(s: Store, h: BlockHash, bytes: Bytes): Store {
    s.(ramBytes := s.ramBytes + |bytes|, ram := s.ram[h := bytes], ramLru := s.ramLru + [h])
  }

  lemma AddRamFiles(s: Store, h: BlockHash, bytes: Bytes)
    requires DiskOk(s) && h !in s.ram && h !in s.disk
    ensures DiskOk(AddRam(s, h, bytes)) && Held(AddRam(s, h, bytes)) == Held(s)[h := bytes]
    ensures AddRam(s, h, bytes) == s.(ramBytes := s.ramBytes + |bytes|, ram := s.ram[h := bytes], ramLru := s.ramLru + [h])
  {}

  lemma AddRamOk(s: Store, h: BlockHash, bytes: Bytes)
    requires Consistent(s) && h !in s.ram && h !in s.disk
    ensures Consistent(AddRam(s, h, bytes)) && Held(AddRam(s, h, bytes)) == Held(s)[h := bytes]
  {
    hide *;
    ConsistentParts(s);
    SizesAt(s.ram, h);
    TierPush(Sizes(s.ram), s.ramLru, s.ramBytes, h, |bytes|);
    SizesPush(s.ram, h, bytes);
    AddRamFiles(s, h, bytes);
    ConsistentMade(AddRam(s, h, bytes));
  }

  lemma Reordered(s: Store, t: Store)
    requires t == s.(ramLru := t.ramLru, diskLru := t.diskLru)
    ensures Held(t) == Held(s) && (DiskOk(s) ==> DiskOk(t))
  {}

  lemma TouchRamOk(s: Store, h: BlockHash)
    requires Consistent(s) && h in s.ram
    ensures var t := s.(ramLru := Without(s.ramLru, h) + [h]);
      Consistent(t) && Held(t) == Held(s) && h in Held(s) && Held(s)[h] == s.ram[h]
  {
    hide *;
    ConsistentParts(s);
    SizesAt(s.ram, h);
    HeldAt(s, h);
    TierTouch(Sizes(s.ram), s.ramLru, s.ramBytes, h);
    var t := s.(ramLru := Without(s.ramLru, h) + [h]);
    Reordered(s, t);
    ConsistentMade(t);
  }

  lemma TouchDiskOk(s: Store, h: BlockHash)
    requires Consistent(s) && h in s.disk
    ensures var t := s.(diskLru := Without(s.diskLru, h) + [h]);
      Consistent(t) && Held(t) == Held(s) && h in s.files && h in Held(s) && Held(s)[h] == s.files[h]
  {
    hide *;
    ConsistentParts(s);
    DiskNotRam(s, h);
    HeldAt(s, h);
    TierTouch(s.disk, s.diskLru, s.diskBytes, h);
    var t := s.(diskLru := Without(s.diskLru, h) + [h]);
    Reordered(s, t);
    ConsistentMade(t);
  }

  function ForgetDisk(s: Store, h: BlockHash): Store {
    s.(diskBytes := if h in s.disk && s.disk[h] <= s.diskBytes then s.diskBytes - s.disk[h] else s.diskBytes,
       disk := s.disk - {h}, diskLru := Without(s.diskLru, h))
  }

  lemma ForgetFiles(s: Store, t: Store, h: BlockHash)
    requires DiskOk(s) && h in s.disk && t == s.(diskLru := t.diskLru, diskBytes := t.diskBytes, disk := s.disk - {h})
    ensures DiskOk(t) && Held(t) == Held(s) - {h}
  {}

  lemma ForgetIs(s: Store, h: BlockHash)
    requires h in s.disk && s.disk[h] <= s.diskBytes
    ensures ForgetDisk(s, h) == s.(diskBytes := s.diskBytes - s.disk[h], disk := s.disk - {h}, diskLru := Without(s.diskLru, h))
  {}

  lemma ForgetDiskOk(s: Store, h: BlockHash)
    requires Consistent(s) && h in s.disk
    ensures s.disk[h] <= s.diskBytes && Consistent(ForgetDisk(s, h)) && Held(ForgetDisk(s, h)) == Held(s) - {h}
  {
    hide *;
    ConsistentParts(s);
    TierDrop(s.disk, s.diskLru, s.diskBytes, h);
    ForgetIs(s, h);
    ForgetFiles(s, ForgetDisk(s, h), h);
    ConsistentMade(ForgetDisk(s, h));
  }

  // ----------------------------------------------------------- keeping the caps

  /** `after` is what is left of the list `before` once its oldest were dropped, and no more than needed. */
  ghost predicate Trimmed(sizes: map<BlockHash, nat>, before: seq<BlockHash>, after: seq<BlockHash>, cap: nat) {
    exists k: nat :: k <= |before| && after == before[k..] && (k > 0 ==> Sum(sizes, before[k - 1..]) > cap)
  }

  lemma NothingTrimmed(sizes: map<BlockHash, nat>, lru: seq<BlockHash>, cap: nat)
    ensures Trimmed(sizes, lru, lru, cap)
  {
    assert lru == lru[0..];
  }

  lemma TrimOne(sizes: map<BlockHash, nat>, now: map<BlockHash, nat>, before: seq<BlockHash>, lru: seq<BlockHash>, cap: nat, bytes: nat)
    requires Trimmed(sizes, before, lru, cap) && lru != [] && TierOk(now, lru, bytes) && bytes > cap
    requires forall h :: h in lru ==> h in sizes && h in now && sizes[h] == now[h]
    ensures Trimmed(sizes, before, lru[1..], cap)
  {
    var k: nat :| k <= |before| && lru == before[k..] && (k > 0 ==> Sum(sizes, before[k - 1..]) > cap);
    SumFrame(now, sizes, lru);
    assert lru[1..] == before[k + 1..];
  }

  lemma CapMet(s: Store)
    requires Consistent(s)
    ensures (s.diskLru == [] ==> s.diskBytes == 0) && (s.ramLru == [] ==> s.ramBytes == 0)
    ensures TierOk(s.disk, s.diskLru, s.diskBytes) && TierOk(Sizes(s.ram), s.ramLru, s.ramBytes)
    ensures (forall h :: h in s.diskLru ==> h in s.disk) && (forall h :: h in s.ramLru ==> h in s.ram && h in Sizes(s.ram))
  {}

  /** What a list still names is as it was. */
  ghost predicate Same(a: map<BlockHash, nat>, b: map<BlockHash, nat>, lru: seq<BlockHash>) {
    forall h :: h in lru ==> h in a && h in b && a[h] == b[h]
  }

  lemma SamePop(a: map<BlockHash, nat>, b: map<BlockHash, nat>, lru: seq<BlockHash>)
    requires Same(a, b, lru) && lru != [] && NoDup(lru)
    ensures Same(a, b - {lru[0]}, lru[1..])
  {
    assert forall h :: h in lru[1..] ==> h in lru && h != lru[0];
  }

  /** What was pushed last, and fits, is not trimmed. */
  lemma TrimKeepsLast(sizes: map<BlockHash, nat>, before: seq<BlockHash>, after: seq<BlockHash>, cap: nat, h: BlockHash)
    requires Trimmed(sizes, before, after, cap) && before != [] && before[|before| - 1] == h && h in sizes && sizes[h] <= cap
    ensures h in after
  {
    var k: nat :| k <= |before| && after == before[k..] && (k > 0 ==> Sum(sizes, before[k - 1..]) > cap);
    assert Sum(sizes, [h]) == sizes[h] by {
      assert [h][1..] == [];
    }
    assert before[|before| - 1..] == [h];
    assert after[|after| - 1] == h;
  }

  /** A file that could not be removed is not indexed, and nobody asks for it. */
  lemma LeftBehind(s: Store, t: Store, h: BlockHash)
    requires Consistent(s) && h !in s.disk && t == s.(files := t.files) && h in t.files && s.files == t.files - {h}
    ensures Consistent(t) && Held(t) == Held(s)
  {
    StrayFileOk(s, h, t.files[h]);
    assert s.files[h := t.files[h]] == t.files;
  }

  lemma TierNoDup(sizes: map<BlockHash, nat>, lru: seq<BlockHash>, bytes: nat)
    requires TierOk(sizes, lru, bytes)
    ensures NoDup(lru) && Same(sizes, sizes, lru)
  {}

  // ------------------------------------------------------------------ the class

  class SpillStore {
    var ram: map<BlockHash, Bytes>
    var ramLru: seq<BlockHash>
    const ramMax: nat
    var ramBytes: nat
    const hasDir: bool
    var disk: map<BlockHash, nat>
    var diskLru: seq<BlockHash>
    const diskMax: nat
    var diskBytes: nat
    /** The files in the directory. */
    var files: map<BlockHash, Bytes>

    ghost function View(): Store
      reads this
    {
      Store(ram, ramLru, ramBytes, hasDir, disk, diskLru, diskBytes, files)
    }

    ghost predicate Valid()
      reads this
    {
      Consistent(View()) && ramBytes <= ramMax && diskBytes <= diskMax
    }

    /** Opened over a directory whose files have distinct hashes, or over none. */
    constructor (found: Option<map<BlockHash, Bytes>>, order: seq<BlockHash>, ramMax: nat, diskMax: nat)
      requires found.Some? ==> NoDup(order) && forall h :: h in order <==> h in found.value
      ensures Valid() && ram == map[] && this.ramMax == ramMax && this.diskMax == diskMax
      ensures Within(Held(View()), if found.Some? then found.value else map[])
    {
      this.ramMax := ramMax;
      this.diskMax := diskMax;
      ram := map[];
      ramLru := [];
      ramBytes := 0;
      disk := map[];
      diskLru := [];
      diskBytes := 0;
      hasDir := found.Some? && diskMax > 0;
      files := if found.Some? && diskMax > 0 then found.value else map[];
      new;
      assert Consistent(View()) by {
        assert Sizes(ram) == map[];
      }
      if found.Some? && diskMax > 0 {
        IndexFiles(order);
        EvictDisk();
      }
    }

    /** Files already in the directory remain usable. */
    method IndexFiles(order: seq<BlockHash>)
      requires Consistent(View()) && hasDir && disk == map[] && ram == map[] && NoDup(order) && forall h :: h in order <==> h in files
      modifies this`disk, this`diskLru, this`diskBytes
      ensures Consistent(View()) && Within(Held(View()), files)
    {
      assert Within(Held(View()), files);
      hide Consistent, Held, Within, AddDisk;
      for i := 0 to |order|
        invariant Consistent(View()) && ram == map[] && Within(Held(View()), files)
        invariant forall h :: h in disk <==> h in order[..i]
      {
        var h := order[i];
        NotYet(order, i);
        IndexOne(h);
      }
    }

    method IndexOne(h: BlockHash)
      requires Consistent(View()) && hasDir && h !in ram && h !in disk && h in files && Within(Held(View()), files)
      modifies this`disk, this`diskLru, this`diskBytes
      ensures Consistent(View()) && Within(Held(View()), files) && disk == old(disk)[h := |files[h]|]
    {
      hide Consistent, Held, Within, AddDisk;
      ghost var here := View();
      AddDiskOk(here, h, files[h]);
      WithinPut(Held(here), files, h, files[h]);
      assert files[h := files[h]] == files;
      disk := disk[h := |files[h]|];
      diskLru := diskLru + [h];
      diskBytes := diskBytes + |files[h]|;
      AddDiskIs(here, h, files[h], View());
    }

    method Contains(h: BlockHash) returns (r: bool)
      ensures r == (h in Held(View()))
    {
      r := h in ram || h in disk;
    }

    method DropOldest()
      requires Consistent(View()) && diskLru != []
      modifies this`disk, this`diskLru, this`diskBytes, this`files
      ensures Consistent(View()) && Within(Held(View()), Held(old(View())))
      ensures disk == old(disk) - {old(diskLru)[0]} && diskLru == old(diskLru)[1..]
    {
      hide Consistent, Held, Within, PopDisk;
      ghost var here := View();
      PopDiskOk(here);
      var h := diskLru[0];
      diskLru := diskLru[1..];
      ghost var was := files;
      var removed: bool := *;
      if removed {
        files := files - {h};
      }
      diskBytes := diskBytes - disk[h];
      disk := disk - {h};
      ghost var gone := View().(files := was - {h});
      PopDiskIs(here, gone);
      if !removed {
        LeftBehind(gone, View(), h);
      }
    }

    /** Drop the oldest files until the cap holds; no more than needed. */
    method EvictDisk()
      requires Consistent(View())
      modifies this`disk, this`diskLru, this`diskBytes, this`files
      ensures Consistent(View()) && diskBytes <= diskMax && Within(Held(View()), old(Held(View())))
      ensures Trimmed(old(disk), old(diskLru), diskLru, diskMax)
    {
      hide Consistent, Held, Trimmed, Same, Within, TierOk, Sizes, NoDup, PopDisk, PopRam, AddDisk;
      ghost var first := View();
      NothingTrimmed(disk, diskLru, diskMax);
      CapMet(View());
      TierNoDup(disk, diskLru, diskBytes);
      WithinSelf(Held(View()));
      while diskBytes > diskMax && diskLru != []
        invariant Consistent(View()) && Within(Held(View()), Held(first))
        invariant Trimmed(first.disk, first.diskLru, diskLru, diskMax) && Same(first.disk, disk, diskLru)
        decreases |diskLru|
      {
        ghost var here := View();
        CapMet(here);
        TierNoDup(disk, diskLru, diskBytes);
        SameIs(first.disk, disk, diskLru);
        TrimOne(first.disk, disk, first.diskLru, diskLru, diskMax, diskBytes);
        SamePop(first.disk, disk, diskLru);
        DropOldest();
        WithinTwice(Held(View()), Held(here), Held(first));
      }
      CapMet(View());
    }

    /** Move the oldest entries to disk until the cap holds. A write that fails, or does not fit, drops the entry. */
    method EvictRam(writable: BlockHash -> bool)
      requires Consistent(View()) && diskBytes <= diskMax
      modifies this`ram, this`ramLru, this`ramBytes, this`disk, this`diskLru, this`diskBytes, this`files
      ensures Valid() && Within(Held(View()), old(Held(View())))
      ensures Trimmed(Sizes(old(ram)), old(ramLru), ramLru, ramMax)
      ensures LastSpilled(old(View()), View(), diskMax, writable)
    {
      hide Consistent, Held, Trimmed, Same, Within, TierOk, Sizes, NoDup, PopDisk, PopRam, AddDisk, LastSpilled;
      ghost var first := View();
      NothingTrimmed(Sizes(ram), ramLru, ramMax);
      CapMet(View());
      TierNoDup(Sizes(ram), ramLru, ramBytes);
      WithinSelf(Held(View()));
      WithinSelf(ram);
      SpilledNone(first, diskMax, writable);
      while ramBytes > ramMax && ramLru != []
        invariant Consistent(View()) && diskBytes <= diskMax && Within(Held(View()), Held(first))
        invariant Trimmed(Sizes(first.ram), first.ramLru, ramLru, ramMax) && Same(Sizes(first.ram), Sizes(ram), ramLru)
        invariant Within(ram, first.ram) && LastSpilled(first, View(), diskMax, writable)
        decreases |ramLru|
      {
        ghost var here := View();
        CapMet(here);
        TierNoDup(Sizes(ram), ramLru, ramBytes);
        SameIs(Sizes(first.ram), Sizes(ram), ramLru);
        TrimOne(Sizes(first.ram), Sizes(ram), first.ramLru, ramLru, ramMax, ramBytes);
        SamePop(Sizes(first.ram), Sizes(ram), ramLru);
        SizesDrop(ram, ramLru[0]);
        LastLeft(Sizes(first.ram), first.ramLru, ramLru, ramMax);
        SpillOldest(writable);
        SpilledStep(first, here, View(), diskMax, writable);
        WithinTwice(Held(View()), Held(here), Held(first));
      }
      CapMet(View());
      ValidMade();
    }

    lemma ValidMade()
      requires Consistent(View()) && ramBytes <= ramMax && diskBytes <= diskMax
      ensures Valid()
    {}

    /** One entry out of host memory, to disk if it fits and the write succeeds. */
    method SpillOldest(writable: BlockHash -> bool)
      requires Consistent(View()) && diskBytes <= diskMax && ramLru != []
      modifies this`ram, this`ramLru, this`ramBytes, this`disk, this`diskLru, this`diskBytes, this`files
      ensures Consistent(View()) && diskBytes <= diskMax && Within(Held(View()), Held(old(View())))
      ensures ram == old(ram) - {old(ramLru)[0]} && ramLru == old(ramLru)[1..]
      ensures var h := old(ramLru)[0];
        h in old(ram) && (hasDir && |old(ram)[h]| <= diskMax && writable(h) ==> h in disk)
    {
      hide Consistent, Held, Trimmed, Same, Within, TierOk, Sizes, NoDup, PopDisk, PopRam, AddDisk;
      ghost var first := View();
      PopRamOk(first);
      var h := ramLru[0];
      var bytes := ram[h];
      ramLru := ramLru[1..];
      ram := ram - {h};
      ramBytes := ramBytes - |bytes|;
      PopRamIs(first, View());
      if !hasDir || |bytes| > diskMax {
        return;
      }
      ghost var mid := View();
      if writable(h) {
        AddDiskOk(mid, h, bytes);
        files := files[h := bytes];
        diskBytes := diskBytes + |bytes|;
        disk := disk[h := |bytes|];
        diskLru := diskLru + [h];
        AddDiskIs(mid, h, bytes, View());
        WithinPut(Held(mid), Held(first), h, bytes);
        ghost var full := View();
        EvictDisk();
        TrimKeepsLast(full.disk, full.diskLru, diskLru, diskMax, h);
        CapMet(View());
        WithinTwice(Held(View()), Held(full), Held(first));
      } else {
        // Whatever the failed write left behind is not indexed.
        var rest: Bytes := *;
        StrayFileOk(mid, h, rest);
        files := files[h := rest];
      }
    }

    /** `put`: at most this block is added, under its own bytes; one already held keeps what it has. It stays if host
        memory can hold it at all, and otherwise if the disk can and the write succeeds. */
    method Put(h: BlockHash, bytes: Bytes, writable: BlockHash -> bool)
      requires Valid()
      modifies this`ram, this`ramLru, this`ramBytes, this`disk, this`diskLru, this`diskBytes, this`files
      ensures Valid() && Within(Held(View()), if h in old(Held(View())) then old(Held(View())) else old(Held(View()))[h := bytes])
      ensures h in old(Held(View())) || (|bytes| > ramMax && |bytes| > diskMax) ==> View() == old(View())
      ensures h !in old(Held(View())) && old(ramBytes) + |bytes| <= ramMax ==> Held(View()) == old(Held(View()))[h := bytes]
      ensures h !in old(Held(View())) && |bytes| <= ramMax ==> h in ram && ram[h] == bytes
      ensures h !in old(Held(View())) && ramMax < |bytes| <= diskMax && hasDir && writable(h) ==>
        h in disk && h in Held(View()) && Held(View())[h] == bytes
    {
      HeldAt(View(), h);
      WithinSelf(Held(View()));
      hide Consistent, Held, Within, AddRam;
      if h in ram || h in disk {
        return;
      }
      WithinGrown(Held(View()), h, bytes);
      if |bytes| > ramMax && |bytes| > diskMax {
        return;
      }
      ghost var first := View();
      AddRamOk(first, h, bytes);
      AddRamIs(first, h, bytes);
      ramBytes := ramBytes + |bytes|;
      ram := ram[h := bytes];
      ramLru := ramLru + [h];
      WithinSelf(Held(View()));
      if ramBytes > ramMax {
        ghost var full := View();
        HeldAt(full, h);
        SizesAt(ram, h);
        EvictRam(writable);
        PutStays(full, View(), ramMax, h, bytes);
        if ramLru == [] {
          LastSpilledIs(full, View(), diskMax, writable);
        }
      }
    }

    /** `get`: the bytes held, or nothing. A disk entry whose file cannot be read is forgotten. */
    method Get(h: BlockHash) returns (r: Option<Bytes>)
      requires Valid()
      modifies this`ramLru, this`disk, this`diskLru, this`diskBytes
      ensures Valid() && ram == old(ram)
      ensures r.Some? ==> h in old(Held(View())) && r.value == old(Held(View()))[h] && Held(View()) == old(Held(View()))
      ensures r.None? ==> Held(View()) == old(Held(View())) - {h}
      ensures h in ram ==> r.Some? && ramLru == Without(old(ramLru), h) + [h] && disk == old(disk) && diskLru == old(diskLru)
      ensures h !in ram && r.Some? ==> ramLru == old(ramLru) && disk == old(disk) && diskLru == Without(old(diskLru), h) + [h]
      ensures r.None? ==> ramLru == old(ramLru) && disk == old(disk) - {h} && (h in old(disk) ==> diskLru == Without(old(diskLru), h))
      ensures r.None? && h !in old(disk) ==> diskLru == old(diskLru)
    {
      ghost var first := View();
      HeldAt(first, h);
      hide Consistent, Held, ForgetDisk;
      if h in ram {
        TouchRamOk(first, h);
        ramLru := Without(ramLru, h) + [h];
        return Some(ram[h]);
      }
      if h in disk {
        var readable: bool := *;
        if readable {
          TouchDiskOk(first, h);
          diskLru := Without(diskLru, h) + [h];
          return Some(files[h]);
        }
        ForgetDiskOk(first, h);
        ForgetIs(first, h);
        diskBytes := diskBytes - disk[h];
        disk := disk - {h};
        diskLru := Without(diskLru, h);
        return None;
      }
      assert Held(first) - {h} == Held(first);
      r := None;
    }
  }

  // ------------------------------------------------------------------- lemmas

  /** The block put last, once the older ones have made room. */
  lemma PutStays(s: Store, t: Store, cap: nat, h: BlockHash, bytes: Bytes)
    requires Consistent(s) && Consistent(t) && s.ramLru != [] && s.ramLru[|s.ramLru| - 1] == h && h in s.ram && s.ram[h] == bytes
    requires Trimmed(Sizes(s.ram), s.ramLru, t.ramLru, cap) && t.ramBytes <= cap && Within(Held(t), Held(s))
    ensures |bytes| <= cap ==> h in t.ram && t.ram[h] == bytes
    ensures |bytes| > cap ==> t.ramLru == []
    ensures h in t.disk ==> h in Held(t) && Held(t)[h] == bytes
  {
    hide *;
    HeldAt(s, h);
    HeldAt(t, h);
    SizesAt(s.ram, h);
    SizesAt(t.ram, h);
    CapMet(t);
    WithinAt(Held(t), Held(s), h);
    if |bytes| <= cap {
      TrimKeepsLast(Sizes(s.ram), s.ramLru, t.ramLru, cap, h);
    } else if t.ramLru != [] {
      LastLeft(Sizes(s.ram), s.ramLru, t.ramLru, cap);
      assert h in t.ramLru;
      TierHolds(Sizes(t.ram), t.ramLru, t.ramBytes, h);
    }
  }

  lemma WithinAt(a: map<BlockHash, Bytes>, b: map<BlockHash, Bytes>, h: BlockHash)
    requires Within(a, b)
    ensures h in a ==> h in b && a[h] == b[h]
  {}

  /** No entry is larger than its tier. */
  lemma TierHolds(sizes: map<BlockHash, nat>, lru: seq<BlockHash>, bytes: nat, h: BlockHash)
    requires TierOk(sizes, lru, bytes) && h in lru
    ensures h in sizes && sizes[h] <= bytes
  {
    SumWithout(sizes, lru, h);
  }

  /** If the whole list of `s` was evicted, its last entry is on disk, provided it fits and can be written. */
  ghost predicate LastSpilled(s: Store, t: Store, diskMax: nat, writable: BlockHash -> bool) {
    s.ramLru != [] && t.ramLru == [] ==>
      var h := s.ramLru[|s.ramLru| - 1];
      h in s.ram && (s.hasDir && |s.ram[h]| <= diskMax && writable(h) ==> h in t.disk)
  }

  lemma LastSpilledIs(s: Store, t: Store, diskMax: nat, writable: BlockHash -> bool)
    requires LastSpilled(s, t, diskMax, writable) && s.ramLru != [] && t.ramLru == []
    ensures var h := s.ramLru[|s.ramLru| - 1];
      h in s.ram && (s.hasDir && |s.ram[h]| <= diskMax && writable(h) ==> h in t.disk)
  {}

  lemma SpilledNone(s: Store, diskMax: nat, writable: BlockHash -> bool)
    ensures LastSpilled(s, s, diskMax, writable)
  {}

  lemma SpilledStep(s: Store, here: Store, t: Store, diskMax: nat, writable: BlockHash -> bool)
    requires s.ramLru != [] && here.ramLru != [] && here.ramLru[|here.ramLru| - 1] == s.ramLru[|s.ramLru| - 1]
    requires Within(here.ram, s.ram) && t.ramLru == here.ramLru[1..] && t.ram == here.ram - {here.ramLru[0]}
    requires var h := here.ramLru[0]; h in here.ram && (s.hasDir && |here.ram[h]| <= diskMax && writable(h) ==> h in t.disk)
    ensures LastSpilled(s, t, diskMax, writable) && Within(t.ram, s.ram)
  {}

  /** A trimmed list ends as the list did. */
  lemma LastLeft(sizes: map<BlockHash, nat>, before: seq<BlockHash>, lru: seq<BlockHash>, cap: nat)
    requires Trimmed(sizes, before, lru, cap) && lru != []
    ensures before != [] && lru[|lru| - 1] == before[|before| - 1]
  {}

  lemma WithinSelf(a: map<BlockHash, Bytes>)
    ensures Within(a, a)
  {}

  lemma SameIs(a: map<BlockHash, nat>, b: map<BlockHash, nat>, lru: seq<BlockHash>)
    requires Same(a, b, lru)
    ensures forall h :: h in lru ==> h in a && h in b && a[h] == b[h]
  {}

  lemma PopDiskIs(s: Store, t: Store)
    requires s.diskLru != [] && s.diskLru[0] in s.disk && s.disk[s.diskLru[0]] <= s.diskBytes
    requires var h := s.diskLru[0];
      t == s.(diskLru := s.diskLru[1..], files := s.files - {h}, diskBytes := s.diskBytes - s.disk[h], disk := s.disk - {h})
    ensures t == PopDisk(s)
  {}

  lemma PopRamIs(s: Store, t: Store)
    requires s.ramLru != [] && s.ramLru[0] in s.ram && |s.ram[s.ramLru[0]]| <= s.ramBytes
    requires var h := s.ramLru[0];
      t == s.(ramLru := s.ramLru[1..], ram := s.ram - {h}, ramBytes := s.ramBytes - |s.ram[h]|)
    ensures t == PopRam(s)
  {}

  lemma AddDiskIs(s: Store, h: BlockHash, bytes: Bytes, t: Store)
    requires t == s.(files := s.files[h := bytes], diskBytes := s.diskBytes + |bytes|, disk := s.disk[h := |bytes|], diskLru := s.diskLru + [h])
    ensures t == AddDisk(s, h, bytes)
  {}

  lemma AddRamIs(s: Store, h: BlockHash, bytes: Bytes)
    ensures AddRam(s, h, bytes) == s.(ramBytes := s.ramBytes + |bytes|, ram := s.ram[h := bytes], ramLru := s.ramLru + [h])
  {}

  lemma WithinGrown(a: map<BlockHash, Bytes>, h: BlockHash, bytes: Bytes)
    requires h !in a
    ensures Within(a, a[h := bytes])
  {}

  lemma NotYet(order: seq<BlockHash>, i: nat)
    requires NoDup(order) && i < |order|
    ensures order[i] in order && order[i] !in order[..i] && forall h :: h in order[..i + 1] <==> h in order[..i] || h == order[i]
  {
    assert order[..i + 1] == order[..i] + [order[i]];
  }

  lemma WithinPut(a: map<BlockHash, Bytes>, b: map<BlockHash, Bytes>, h: BlockHash, bytes: Bytes)
    requires Within(a, b) && h in b && b[h] == bytes
    ensures Within(a[h := bytes], b)
  {}
}
