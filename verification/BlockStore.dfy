/** The flat files that hold blocks and undo records, and the index that says what is where. */
module BlockStore {
  import opened Primitives

  newtype Byte = b: int | 0 <= b < 256

  type Bytes = seq<Byte>

  datatype RecordType = BlockRecords | UndoRecords

  /** Where a record's bytes are. */
  datatype BlockRecord = BlockRecord(file: nat, position: nat, length: nat)

  /** How many records a file has, how much of it is used, and how much may be. */
  datatype FileRecord = FileRecord(blocks: nat, used: nat, length: nat)

  type RecordKey = (RecordType, BlockHash)
  type FileKey = (RecordType, nat)

  datatype Files = Files(
    max: nat, records: map<RecordKey, BlockRecord>, files: map<FileKey, FileRecord>,
    lastFile: map<RecordType, nat>, disk: map<FileKey, Bytes>)

  // ---- The bytes before a record ---------------------------------------------------------------

  function LittleEndian(n: nat, width: nat): (bytes: Bytes)
    ensures |bytes| == width
  {
    if width == 0 then [] else [(n % 256) as Byte] + LittleEndian(n / 256, width - 1)
  }

  /** The number that bytes are, lowest byte first. */
  function Number(bytes: Bytes): nat {
    if bytes == [] then 0 else bytes[0] as nat + 256 * Number(bytes[1..])
  }

  function Pow256(width: nat): nat {
    if width == 0 then 1 else 256 * Pow256(width - 1)
  }

  /** What is written as a number of `width` bytes reads back, if it fits. */
  lemma {:induction false} LittleEndianReadsBack(n: nat, width: nat)
    requires n < Pow256(width)
    ensures Number(LittleEndian(n, width)) == n
  {
    if width > 0 {
      LittleEndianReadsBack(n / 256, width - 1);
      ByteReadsBack(n % 256);
      NumberOneMore((n % 256) as Byte, LittleEndian(n / 256, width - 1));
    }
  }

  lemma ByteReadsBack(b: nat)
    requires b < 256
    ensures (b as Byte) as nat == b
  {
  }

  lemma NumberOneMore(first: Byte, rest: Bytes)
    ensures Number([first] + rest) == first as nat + 256 * Number(rest)
  {
    assert ([first] + rest)[1..] == rest;
  }

  /** Magic and length; an undo record has its block's hash too. */
  function Prefix(magic: nat, kind: RecordType, hash: BlockHash, length: nat): (bytes: Bytes)
    ensures |bytes| == PrefixLength(kind)
  {
    LittleEndian(magic, 4) + LittleEndian(length, 4) + if kind.UndoRecords? then LittleEndian(hash, 32) else []
  }

  function PrefixLength(kind: RecordType): nat {
    if kind.UndoRecords? then 40 else 8
  }

  /** A file after `data` was written at `position`. */
  function WrittenAt(bytes: Bytes, position: nat, data: Bytes): (r: Bytes)
    requires position <= |bytes|
    ensures |r| >= position + |data| && |r| >= |bytes|
    ensures r[..position] == bytes[..position] && r[position..position + |data|] == data
    ensures |bytes| > position + |data| ==> r[position + |data|..] == bytes[position + |data|..]
    ensures |bytes| <= position + |data| ==> |r| == position + |data|
  {
    bytes[..position] + data + if position + |data| < |bytes| then bytes[position + |data|..] else []
  }

  // ---- The invariant -------------------------------------------------------------------------------

  ghost function RecordsIn(s: Files, f: FileKey): set<RecordKey> {
    set k | k in s.records && k.0 == f.0 && s.records[k].file == f.1
  }

  /** A file in use is there, filled up to `used` at least, and counts its records. */
  ghost predicate FileOk(s: Files, f: FileKey)
    requires f in s.files
  {
    && f in s.disk && s.files[f].used <= |s.disk[f]| && s.files[f].used <= s.files[f].length == s.max
    && s.files[f].blocks == |RecordsIn(s, f)| > 0
    && f.0 in s.lastFile && f.1 <= s.lastFile[f.0]
  }

  /** A record lies, with its prefix, in the used part of a file in use. */
  ghost predicate RecordOk(s: Files, k: RecordKey)
    requires k in s.records
  {
    var r := s.records[k];
    (k.0, r.file) in s.files && PrefixLength(k.0) <= r.position && r.position + r.length <= s.files[(k.0, r.file)].used
  }

  /** Two records of one file do not overlap, prefixes included. */
  predicate Apart(s: Files, k: RecordKey, j: RecordKey)
    requires k in s.records && j in s.records
  {
    var a, b := s.records[k], s.records[j];
    k != j && k.0 == j.0 && a.file == b.file ==>
      a.position + a.length + PrefixLength(k.0) <= b.position || b.position + b.length + PrefixLength(k.0) <= a.position
  }

  ghost predicate Consistent(s: Files) {
    && (forall f {:trigger FileOk(s, f)} :: f in s.files ==> FileOk(s, f))
    && (forall k {:trigger RecordOk(s, k)} :: k in s.records ==> RecordOk(s, k))
    && (forall k, j {:trigger Apart(s, k, j)} :: k in s.records && j in s.records ==> Apart(s, k, j))
  }

  /** What reading the record `k` gives. */
  ghost function ContentOf(s: Files, k: RecordKey): Bytes
    requires k in s.records && RecordOk(s, k) && (forall f :: f in s.files ==> FileOk(s, f))
  {
    var r := s.records[k];
    assert FileOk(s, (k.0, r.file));
    s.disk[(k.0, r.file)][r.position..r.position + r.length]
  }

  /** Everything the store holds: the bytes under each hash. */
  ghost function Contents(s: Files): map<RecordKey, Bytes>
    requires Consistent(s)
  {
    map k | k in s.records :: assert RecordOk(s, k); ContentOf(s, k)
  }

  // ---- Writing ----------------------------------------------------------------------------------------

  function LastFile(s: Files, kind: RecordType): nat {
    if kind in s.lastFile then s.lastFile[kind] else 0
  }

  function Created(s: Files, f: FileKey): Files {
    s.(disk := s.disk[f := []])
  }

  /** Creating a file that is not in use, even where one lies around, loses nothing. */
  lemma CreatingKeeps(s: Files, f: FileKey)
    requires Consistent(s) && f !in s.files
    ensures Consistent(Created(s, f)) && Contents(Created(s, f)) == Contents(s)
  {
    var t := Created(s, f);
    forall g | g in t.files
      ensures FileOk(t, g)
    {
      assert FileOk(s, g) && RecordsIn(t, g) == RecordsIn(s, g);
    }
    SameRecords(s, t);
  }

  /** Records keep their contents when they and their bytes stay. */
  lemma SameRecords(s: Files, t: Files)
    requires Consistent(s) && (forall f {:trigger FileOk(t, f)} :: f in t.files ==> FileOk(t, f))
    requires t.records == s.records && (forall f :: f in s.files ==> f in t.files && t.files[f].used >= s.files[f].used)
    requires forall f :: f in s.files ==> f in t.disk && f in s.disk && t.disk[f] == s.disk[f]
    ensures Consistent(t) && Contents(t) == Contents(s)
  {
    forall k | k in t.records
      ensures RecordOk(t, k)
    {
      assert RecordOk(s, k);
    }
    forall k, j | k in t.records && j in t.records
      ensures Apart(t, k, j)
    {
      assert Apart(s, k, j);
    }
    forall k | k in s.records
      ensures ContentOf(t, k) == ContentOf(s, k)
    {
      assert RecordOk(s, k) && RecordOk(t, k);
    }
  }

  function Unused(s: Files): FileRecord {
    FileRecord(0, 0, s.max)
  }

  /** The store after a record was appended to file `f`, whose file record was `record`. */
  function Appended(s: Files, f: FileKey, record: FileRecord, hash: BlockHash, magic: nat, data: Bytes): Files
    requires f in s.disk && record.used <= |s.disk[f]|
  {
    var prefix := Prefix(magic, f.0, hash, |data|);
    s.(records := s.records[(f.0, hash) := BlockRecord(f.1, record.used + |prefix|, |data|)],
       files := s.files[f := FileRecord(record.blocks + 1, record.used + |prefix| + |data|, record.length)],
       lastFile := s.lastFile[f.0 := f.1],
       disk := s.disk[f := WrittenAt(s.disk[f], record.used, prefix + data)])
  }

  /** Everything is in place for `length` more bytes to go to file `f`. */
  ghost predicate Room(s: Files, f: FileKey, record: FileRecord, length: nat) {
    && f in s.disk && record.used <= |s.disk[f]| && f.1 >= LastFile(s, f.0)
    && record == (if f in s.files then s.files[f] else Unused(s))
    && record.used + length <= record.length
  }

  lemma AppendedFile(s: Files, f: FileKey, record: FileRecord, hash: BlockHash, magic: nat, data: Bytes)
    requires Consistent(s) && (f.0, hash) !in s.records && Room(s, f, record, PrefixLength(f.0) + |data|)
    ensures FileOk(Appended(s, f, record, hash, magic, data), f)
  {
    var t := Appended(s, f, record, hash, magic, data);
    assert RecordsIn(t, f) == RecordsIn(s, f) + {(f.0, hash)} && (f.0, hash) !in RecordsIn(s, f);
    if f in s.files {
      assert FileOk(s, f);
    } else {
      NoRecordsUnused(s, f);
    }
  }

  lemma AppendedFiles(s: Files, f: FileKey, record: FileRecord, hash: BlockHash, magic: nat, data: Bytes)
    requires Consistent(s) && (f.0, hash) !in s.records && Room(s, f, record, PrefixLength(f.0) + |data|)
    ensures var t := Appended(s, f, record, hash, magic, data);
            forall g {:trigger FileOk(t, g)} :: g in t.files ==> FileOk(t, g)
  {
    var t := Appended(s, f, record, hash, magic, data);
    var key := (f.0, hash);
    forall g | g in t.files
      ensures FileOk(t, g)
    {
      if g == f {
        AppendedFile(s, f, record, hash, magic, data);
      } else {
        assert FileOk(s, g) && RecordsIn(t, g) == RecordsIn(s, g);
      }
    }
  }

  lemma NoRecordsUnused(s: Files, f: FileKey)
    requires Consistent(s) && f !in s.files
    ensures RecordsIn(s, f) == {}
  {
    forall k
      ensures k !in RecordsIn(s, f)
    {
      if k in s.records {
        assert RecordOk(s, k);
      }
    }
  }

  lemma AppendedRecord(s: Files, f: FileKey, record: FileRecord, hash: BlockHash, magic: nat, data: Bytes, k: RecordKey)
    requires Consistent(s) && (f.0, hash) !in s.records && Room(s, f, record, PrefixLength(f.0) + |data|)
             && k in s.records
    ensures var t := Appended(s, f, record, hash, magic, data);
            && RecordOk(t, k) && Apart(t, k, (f.0, hash)) && Apart(t, (f.0, hash), k)
            && (k.0, s.records[k].file) in s.disk && (k.0, s.records[k].file) in t.disk
            && var r := s.records[k];
               && r.position + r.length <= |s.disk[(k.0, r.file)]| && r.position + r.length <= |t.disk[(k.0, r.file)]|
               && t.disk[(k.0, r.file)][r.position..r.position + r.length] ==
                    s.disk[(k.0, r.file)][r.position..r.position + r.length]
  {
    var t := Appended(s, f, record, hash, magic, data);
    var r := s.records[k];
    assert RecordOk(s, k) && FileOk(s, (k.0, r.file));
    if (k.0, r.file) == f {
      var was, now := s.disk[f], t.disk[f];
      assert was[r.position..r.position + r.length] == was[..record.used][r.position..r.position + r.length];
      assert now[r.position..r.position + r.length] == now[..record.used][r.position..r.position + r.length];
    }
  }

  lemma AppendedApart(s: Files, f: FileKey, record: FileRecord, hash: BlockHash, magic: nat, data: Bytes)
    requires Consistent(s) && (f.0, hash) !in s.records && Room(s, f, record, PrefixLength(f.0) + |data|)
    ensures var t := Appended(s, f, record, hash, magic, data);
            forall k, j {:trigger Apart(t, k, j)} :: k in t.records && j in t.records ==> Apart(t, k, j)
  {
    var t := Appended(s, f, record, hash, magic, data);
    var key := (f.0, hash);
    forall k, j | k in t.records && j in t.records
      ensures Apart(t, k, j)
    {
      if k != key && j != key {
        assert Apart(s, k, j);
      } else if k != j {
        AppendedRecord(s, f, record, hash, magic, data, if k == key then j else k);
      }
    }
  }

  /** Appending adds exactly the new record: it reads back its bytes, and every other its own. */
  lemma AppendingAdds(s: Files, f: FileKey, record: FileRecord, hash: BlockHash, magic: nat, data: Bytes)
    requires Consistent(s) && (f.0, hash) !in s.records && Room(s, f, record, PrefixLength(f.0) + |data|)
    ensures var t := Appended(s, f, record, hash, magic, data);
            Consistent(t) && Contents(t) == Contents(s)[(f.0, hash) := data]
  {
    var t := Appended(s, f, record, hash, magic, data);
    var key := (f.0, hash);
    AppendedFiles(s, f, record, hash, magic, data);
    AppendedApart(s, f, record, hash, magic, data);
    forall k | k in t.records
      ensures RecordOk(t, k)
    {
      if k != key {
        AppendedRecord(s, f, record, hash, magic, data, k);
      }
    }
    AppendedContents(s, f, record, hash, magic, data);
  }

  lemma AppendedContents(s: Files, f: FileKey, record: FileRecord, hash: BlockHash, magic: nat, data: Bytes)
    requires Consistent(s) && (f.0, hash) !in s.records && Room(s, f, record, PrefixLength(f.0) + |data|)
    requires Consistent(Appended(s, f, record, hash, magic, data))
    ensures Contents(Appended(s, f, record, hash, magic, data)) == Contents(s)[(f.0, hash) := data]
  {
    var t := Appended(s, f, record, hash, magic, data);
    NewContent(s, f, record, hash, magic, data);
    forall k | k in t.records
      ensures Contents(t)[k] == Contents(s)[(f.0, hash) := data][k]
    {
      assert RecordOk(t, k);
      if k != (f.0, hash) {
        assert RecordOk(s, k);
        AppendedRecord(s, f, record, hash, magic, data, k);
      }
    }
  }

  lemma NewContent(s: Files, f: FileKey, record: FileRecord, hash: BlockHash, magic: nat, data: Bytes)
    requires f in s.disk && record.used <= |s.disk[f]|
    ensures var t := Appended(s, f, record, hash, magic, data); var r := t.records[(f.0, hash)];
            r.position + r.length <= |t.disk[f]| && t.disk[f][r.position..r.position + r.length] == data
  {
    var t := Appended(s, f, record, hash, magic, data);
    var prefix := Prefix(magic, f.0, hash, |data|);
    var all := prefix + data;
    var now := t.disk[f];
    assert now[record.used..record.used + |all|][|prefix|..] == data;
    assert now[record.used + |prefix|..record.used + |all|] == now[record.used..record.used + |all|][|prefix|..];
  }

  // ---- Pruning ------------------------------------------------------------------------------------------

  /** The store without record `k`; a file that loses its last record goes too. */
  function Pruned(s: Files, k: RecordKey): Files
    requires k in s.records && (k.0, s.records[k].file) in s.files && s.files[(k.0, s.records[k].file)].blocks > 0
  {
    var f := (k.0, s.records[k].file);
    var record := s.files[f].(blocks := s.files[f].blocks - 1);
    if record.blocks == 0 then s.(records := s.records - {k}, files := s.files - {f}, disk := s.disk - {f})
    else s.(records := s.records - {k}, files := s.files[f := record])
  }

  lemma PrunedFiles(s: Files, k: RecordKey)
    requires Consistent(s) && k in s.records
    ensures (k.0, s.records[k].file) in s.files && s.files[(k.0, s.records[k].file)].blocks > 0
    ensures var t := Pruned(s, k);
            && (forall g {:trigger FileOk(t, g)} :: g in t.files ==> FileOk(t, g))
            && (forall j :: j in t.records ==> (j.0, t.records[j].file) in t.files)
  {
    var f := (k.0, s.records[k].file);
    assert RecordOk(s, k) && FileOk(s, f);
    var t := Pruned(s, k);
    assert RecordsIn(t, f) == RecordsIn(s, f) - {k};
    forall g | g in t.files
      ensures FileOk(t, g)
    {
      assert FileOk(s, g);
      if g != f {
        assert RecordsIn(t, g) == RecordsIn(s, g);
      }
    }
    forall j | j in t.records
      ensures (j.0, t.records[j].file) in t.files
    {
      assert RecordOk(s, j);
      assert j in RecordsIn(t, (j.0, t.records[j].file));
    }
  }

  /** Pruning takes exactly the one record away. */
  lemma PruningRemoves(s: Files, k: RecordKey)
    requires Consistent(s) && k in s.records
    ensures (k.0, s.records[k].file) in s.files && s.files[(k.0, s.records[k].file)].blocks > 0
    ensures Consistent(Pruned(s, k)) && Contents(Pruned(s, k)) == Contents(s) - {k}
  {
    PrunedFiles(s, k);
    var t := Pruned(s, k);
    forall j | j in t.records
      ensures RecordOk(t, j)
    {
      assert RecordOk(s, j);
    }
    forall i, j | i in t.records && j in t.records
      ensures Apart(t, i, j)
    {
      assert Apart(s, i, j);
    }
    forall j | j in t.records
      ensures RecordOk(t, j) && RecordOk(s, j) && ContentOf(t, j) == ContentOf(s, j)
    {
      assert RecordOk(s, j) && RecordOk(t, j);
      PrunedDisk(s, k, j);
    }
  }

  lemma PrunedDisk(s: Files, k: RecordKey, j: RecordKey)
    requires Consistent(s) && k in s.records && j in s.records && j != k
    ensures (k.0, s.records[k].file) in s.files && s.files[(k.0, s.records[k].file)].blocks > 0
    ensures var t := Pruned(s, k); var g := (j.0, s.records[j].file);
            g in s.disk && g in t.disk && t.disk[g] == s.disk[g] && t.records[j] == s.records[j]
  {
    PrunedFiles(s, k);
    var t := Pruned(s, k);
    var g := (j.0, t.records[j].file);
    assert RecordOk(s, j) && FileOk(s, g) && g in t.files;
  }

  lemma SliceOfSlice(bytes: Bytes, position: nat, length: nat, offset: nat, n: nat)
    requires position + length <= |bytes| && offset + n <= length
    ensures bytes[position + offset..position + offset + n] == bytes[position..position + length][offset..offset + n]
  {
    var whole := bytes[position..position + length];
    var inner, outer := whole[offset..offset + n], bytes[position + offset..position + offset + n];
    forall i | 0 <= i < n
      ensures inner[i] == outer[i]
    {
      assert inner[i] == whole[offset + i];
    }
  }

  ghost predicate Opened(s: Files) {
    true
  }

  /** The store is consistent and holds exactly `contents`.  The quantifier keeps it folded
      wherever it is only passed on; `HoldsMeans` opens it. */
  ghost predicate Holds(s: Files, contents: map<RecordKey, Bytes>) {
    forall t {:trigger Opened(t)} :: Opened(t) && t == s ==> Consistent(t) && Contents(t) == contents
  }

  lemma HoldsMeans(s: Files, contents: map<RecordKey, Bytes>)
    ensures Holds(s, contents) <==> Consistent(s) && Contents(s) == contents
  {
    assert Opened(s);
  }

  lemma CreatingHolds(s: Files, f: FileKey, contents: map<RecordKey, Bytes>)
    requires Holds(s, contents) && f !in s.files
    ensures Holds(Created(s, f), contents)
  {
    HoldsMeans(s, contents);
    CreatingKeeps(s, f);
    HoldsMeans(Created(s, f), contents);
  }

  lemma AppendingHolds(s: Files, f: FileKey, record: FileRecord, hash: BlockHash, magic: nat, data: Bytes,
                       contents: map<RecordKey, Bytes>)
    requires Holds(s, contents) && (f.0, hash) !in s.records && Room(s, f, record, PrefixLength(f.0) + |data|)
    ensures Holds(Appended(s, f, record, hash, magic, data), contents[(f.0, hash) := data])
  {
    HoldsMeans(s, contents);
    AppendingAdds(s, f, record, hash, magic, data);
    HoldsMeans(Appended(s, f, record, hash, magic, data), contents[(f.0, hash) := data]);
  }

  lemma PruningHolds(s: Files, k: RecordKey, contents: map<RecordKey, Bytes>)
    requires Holds(s, contents) && k in s.records
    ensures (k.0, s.records[k].file) in s.files && s.files[(k.0, s.records[k].file)].blocks > 0
    ensures Holds(Pruned(s, k), contents - {k})
  {
    HoldsMeans(s, contents);
    PruningRemoves(s, k);
    HoldsMeans(Pruned(s, k), contents - {k});
  }

  lemma HeldRecords(s: Files, contents: map<RecordKey, Bytes>)
    requires Holds(s, contents)
    ensures contents.Keys == s.records.Keys
  {
    HoldsMeans(s, contents);
  }

  /** Where a file for new bytes may be taken from: the last one in use, or one beyond it. */
  lemma FilesInUse(s: Files, contents: map<RecordKey, Bytes>, kind: RecordType)
    requires Holds(s, contents)
    ensures var f := (kind, LastFile(s, kind));
            f in s.files ==> f in s.disk && s.files[f].used <= |s.disk[f]| && s.files[f].length == s.max
    ensures (kind, LastFile(s, kind) + 1) !in s.files
  {
    HoldsMeans(s, contents);
    var last := LastFile(s, kind);
    assert (kind, last) in s.files ==> FileOk(s, (kind, last));
    assert (kind, last + 1) in s.files ==> FileOk(s, (kind, last + 1));
  }

  /** The record lies in its file behind magic and length, and an undo record behind its hash. */
  ghost predicate Framed(s: Files, magic: nat, k: RecordKey, data: Bytes) {
    k in s.records &&
    var r := s.records[k];
    var prefix := LittleEndian(magic, 4) + LittleEndian(|data|, 4) + if k.0.UndoRecords? then LittleEndian(k.1, 32)
      else [];
    && (k.0, r.file) in s.disk && r.length == |data| && |prefix| <= r.position
    && r.position + r.length <= |s.disk[(k.0, r.file)]|
    && s.disk[(k.0, r.file)][r.position - |prefix|..r.position + r.length] == prefix + data
  }

  lemma AppendedIsFramed(s: Files, f: FileKey, record: FileRecord, hash: BlockHash, magic: nat, data: Bytes)
    requires Room(s, f, record, PrefixLength(f.0) + |data|)
    ensures Framed(Appended(s, f, record, hash, magic, data), magic, (f.0, hash), data)
  {
  }

  // ---- The store ------------------------------------------------------------------------------------------

  class BlockStore {
    const max: nat
    const magic: nat
    var records: map<RecordKey, BlockRecord>
    var files: map<FileKey, FileRecord>
    var lastFile: map<RecordType, nat>
    var disk: map<FileKey, Bytes>
    /** The bytes under each hash: what the store is for. */
    ghost var contents: map<RecordKey, Bytes>

    ghost function View(): Files
      reads this
    {
      Files(max, records, files, lastFile, disk)
    }

    ghost predicate Valid()
      reads this
    {
      Holds(View(), contents)
    }

    constructor (max: nat, magic: nat)
      ensures this.max == max && this.magic == magic && Valid() && contents == map[]
    {
      this.max, this.magic := max, magic;
      records, files, lastFile, disk, contents := map[], map[], map[], map[], map[];
      new;
      HoldsMeans(View(), contents);
    }

    /** Finds a file with room for `length` more bytes, and creates it when it is a new one. */
    method Allocate(kind: RecordType, length: nat) returns (file: nat, record: FileRecord)
      requires Valid() && length <= max
      modifies this`disk
      ensures Valid() && Room(View(), (kind, file), record, length)
      ensures var last := if kind in lastFile then lastFile[kind] else 0;
              var fits := if (kind, last) in files then files[(kind, last)].used + length <= files[(kind, last)].length
                else true;
              && file == (if fits then last else last + 1)
              && disk == if (kind, file) in files then old(disk) else old(disk)[(kind, file) := []]
    {
      FilesInUse(View(), contents, kind);
      file := if kind in lastFile then lastFile[kind] else 0;
      var touch := (kind, file) !in files;
      record := if touch then FileRecord(0, 0, max) else files[(kind, file)];
      if record.used + length > record.length {
        file, touch, record := file + 1, true, FileRecord(0, 0, max);
      }
      if touch {
        CreatingHolds(View(), (kind, file), contents);
        disk := disk[(kind, file) := []];
      }
    }

    /** Writes `data` under `hash`, once: a hash that is there keeps what it has. */
    method Write(kind: RecordType, hash: BlockHash, data: Bytes)
      requires Valid() && |data| + PrefixLength(kind) <= max
      modifies this
      ensures Valid()
      ensures contents == if (kind, hash) in old(contents) then old(contents) else old(contents)[(kind, hash) := data]
      ensures (kind, hash) !in old(contents) ==> Framed(View(), magic, (kind, hash), data)
    {
      HeldRecords(View(), contents);
      if (kind, hash) in records {
        return;
      }
      var file, record := Allocate(kind, |data| + PrefixLength(kind));
      ghost var x := View();
      AppendingHolds(x, (kind, file), record, hash, magic, data, contents);
      AppendedIsFramed(x, (kind, file), record, hash, magic, data);
      Append(kind, hash, file, record, data);
      contents := contents[(kind, hash) := data];
    }

    /** Writes prefix and data behind what the file has, and enters the record. */
    method Append(kind: RecordType, hash: BlockHash, file: nat, record: FileRecord, data: Bytes)
      requires (kind, file) in disk && record.used <= |disk[(kind, file)]|
      modifies this`disk, this`records, this`files, this`lastFile
      ensures View() == Appended(old(View()), (kind, file), record, hash, magic, data)
    {
      var f := (kind, file);
      var prefix := Prefix(magic, kind, hash, |data|);
      disk := disk[f := WrittenAt(disk[f], record.used, prefix + data)];
      records := records[(kind, hash) := BlockRecord(file, record.used + |prefix|, |data|)];
      files := files[f := FileRecord(record.blocks + 1, record.used + |prefix| + |data|, record.length)];
      lastFile := lastFile[kind := file];
    }

    /** Reads a stretch of a record; nothing when there is no such record. */
    method Read(kind: RecordType, hash: BlockHash, offset: nat, length: Option<nat>) returns (r: Option<Bytes>)
      requires Valid()
      requires (kind, hash) in contents ==>
                 offset + (if length.Some? then length.value else 0) <= |contents[(kind, hash)]|
      ensures r.None? <==> (kind, hash) !in contents
      ensures r.Some? ==> r.value == contents[(kind, hash)][offset..if length.Some? then offset + length.value
                                                            else |contents[(kind, hash)]|]
    {
      HoldsMeans(View(), contents);
      if (kind, hash) !in records {
        return None;
      }
      var record := records[(kind, hash)];
      assert RecordOk(View(), (kind, hash)) && FileOk(View(), (kind, record.file));
      var position := record.position + offset;
      var n := if length.Some? then length.value else record.length - offset;
      var bytes := disk[(kind, record.file)];
      SliceOfSlice(bytes, record.position, record.length, offset, n);
      r := Some(bytes[position..position + n]);
    }

    /** Forgets a record, and deletes the file that held only it. */
    method Prune(kind: RecordType, hash: BlockHash) returns (pruned: bool)
      requires Valid()
      modifies this
      ensures Valid() && contents == old(contents) - {(kind, hash)}
      ensures pruned <==> (kind, hash) in old(contents)
    {
      HeldRecords(View(), contents);
      if (kind, hash) !in records {
        assert contents - {(kind, hash)} == contents;
        return false;
      }
      var f := (kind, records[(kind, hash)].file);
      PruningHolds(View(), (kind, hash), contents);
      var record := files[f].(blocks := files[f].blocks - 1);
      if record.blocks == 0 {
        files := files - {f};
        disk := disk - {f};
      } else {
        files := files[f := record];
      }
      records := records - {(kind, hash)};
      contents := contents - {(kind, hash)};
      return true;
    }
  }
}
