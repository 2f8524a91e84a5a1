// The file records behind pipeline inputs and outputs (server/utils/file):
// the `files` table, the `task_record_files` link table and the local
// directory ./file/<path>/ that holds the bytes.
module Files {
  import opened Wrappers
  import opened Text

  /** A row of the files table, keyed by its id. */
  datatype FileRecord = FileRecord(name: string, path: string, size: int, exName: string)

  /** A row of the task_record_files table: an output file of a task run. */
  datatype Link = Link(taskRecordId: string, fileId: string)

  const MissingRecord := "file record does not exist"

  /** The extension an output file is stored under: always with a leading dot. */
  function NormalizeExt(exName: string): (r: string)
    ensures StartsWith(r, ".")
    ensures StartsWith(exName, ".") ==> r == exName
    ensures !StartsWith(exName, ".") ==> r[1..] == exName
  {
    if StartsWith(exName, ".") then exName else "." + exName
  }

  /** The display name kept for an output file: the requested name without one trailing extension. */
  function StoredName(fileName: string, ext: string): (r: string)
    ensures EndsWith(fileName, ext) ==> r + ext == fileName
    ensures !EndsWith(fileName, ext) ==> r == fileName
  {
    if EndsWith(fileName, ext) then TrimSuffix(fileName, ext) else fileName
  }

  /** Where a file record's bytes live, relative to the working directory. */
  function LocalPath(id: string, f: FileRecord): string
  {
    "./file/" + f.path + "/" + id + f.exName
  }

  /** A recorded file's local path starts with "./", and resolving it against a
      directory keeps "/file/<path>/<id><ext>" at the end. */
  lemma AbsLocalPath(workDir: string, id: string, f: FileRecord)
    ensures StartsWith(LocalPath(id, f), "./")
    ensures EndsWith(workDir + LocalPath(id, f)[1..], "/file/" + f.path + "/" + id + f.exName)
  {
    var tail := "/file/" + f.path + "/" + id + f.exName;
    assert LocalPath(id, f) == "." + tail;
    assert LocalPath(id, f)[1..] == tail;
    var abs := workDir + tail;
    assert abs[|abs| - |tail|..] == tail;
  }

  /** The three tables SaveOutputFile and DeleteFile read and write. */
  datatype StoreState = StoreState(records: map<string, FileRecord>, links: seq<Link>, disk: map<string, int>)

  /** DeleteFile on the tables: an unknown id fails and changes nothing; otherwise the
      record goes, and when its bytes exist they and the file's links go too. */
  function DeleteState(st: StoreState, id: string): (r: (StoreState, Outcome))
    ensures r.1.Fail? <==> id !in st.records
    ensures r.1.Fail? ==> r == (st, Fail(MissingRecord))
    ensures r.0.records == st.records - {id}
    ensures r.0.disk.Keys <= st.disk.Keys && forall p :: p in r.0.disk ==> r.0.disk[p] == st.disk[p]
    ensures id in st.records ==> LocalPath(id, st.records[id]) !in r.0.disk
    ensures forall l :: l in r.0.links ==> l in st.links
    ensures forall l :: l in st.links && l.fileId != id ==> l in r.0.links
  {
    if id !in st.records then (st, Fail(MissingRecord))
    else
      var path := LocalPath(id, st.records[id]);
      if path !in st.disk then (st.(records := st.records - {id}), Pass)
      else (StoreState(st.records - {id}, WithoutFile(st.links, id), st.disk - {path}), Pass)
  }

  /** The bookkeeping of a successful run for one output file: a missing record is
      reported, a record whose bytes never appeared is dropped, and any other gets its
      size and a link to the run. */
  function Keep(st: StoreState, recordId: string, id: string): (r: (StoreState, seq<string>))
    ensures r.1 == [] || r.1 == [MissingRecord]
    ensures r.1 == [MissingRecord] <==> id !in st.records
    ensures r.0.disk == st.disk && r.0.records.Keys <= st.records.Keys
    ensures forall k :: k in r.0.records && k != id ==> r.0.records[k] == st.records[k]
    ensures id in r.0.records ==>
      var path := LocalPath(id, r.0.records[id]);
      path in st.disk && r.0.records[id].size == st.disk[path] && r.0.links == st.links + [Link(recordId, id)]
    ensures id !in r.0.records ==> r.0.links == st.links
  {
    if id !in st.records then (st, [MissingRecord])
    else
      var f := st.records[id];
      var path := LocalPath(id, f);
      if path !in st.disk then (st.(records := st.records - {id}), [])
      else (st.(records := st.records[id := f.(size := st.disk[path])], links := st.links + [Link(recordId, id)]), [])
  }

  /** One turn of SaveOutputFile's loop. As written, a failed run deletes the file and
      then goes on to look its record up; as intended, it stops after the deletion. */
  function SaveOne(st: StoreState, recordId: string, id: string, isError: bool, asWritten: bool): (StoreState, seq<string>)
  {
    if isError then
      var (st1, d) := DeleteState(st, id);
      if d.Fail? then (st1, [d.msg])
      else if asWritten then Keep(st1, recordId, id)
      else (st1, [])
    else Keep(st, recordId, id)
  }

  /** The whole loop over the output file ids, in order: the final tables and the
      errors collected. */
  function Save(st: StoreState, recordId: string, ids: seq<string>, isError: bool, asWritten: bool): (StoreState, seq<string>)
    decreases |ids|
  {
    if |ids| == 0 then (st, [])
    else
      var (st1, e1) := Save(st, recordId, ids[..|ids| - 1], isError, asWritten);
      var (st2, e2) := SaveOne(st1, recordId, ids[|ids| - 1], isError, asWritten);
      (st2, e1 + e2)
  }

  /** One more id is one more turn of the loop. */
  lemma SaveSnoc(st: StoreState, recordId: string, ids: seq<string>, id: string, isError: bool, asWritten: bool)
    ensures var (st1, e1) := Save(st, recordId, ids, isError, asWritten);
      Save(st, recordId, ids + [id], isError, asWritten)
        == (SaveOne(st1, recordId, id, isError, asWritten).0, e1 + SaveOne(st1, recordId, id, isError, asWritten).1)
  {
    assert (ids + [id])[..|ids|] == ids;
  }

  /** Every error the corrected loop collects is a missing record, one at most per id. */
  lemma {:induction false} SaveErrors(st: StoreState, recordId: string, ids: seq<string>, isError: bool)
    ensures forall i :: 0 <= i < |Save(st, recordId, ids, isError, false).1| ==>
      Save(st, recordId, ids, isError, false).1[i] == MissingRecord
    ensures |Save(st, recordId, ids, isError, false).1| <= |ids|
    decreases |ids|
  {
    if |ids| > 0 {
      SaveErrors(st, recordId, ids[..|ids| - 1], isError);
    }
  }

  /** Records are never added, and one not listed keeps its membership; on a failed run
      the surviving records keep their contents. */
  lemma {:induction false} SaveRecords(st: StoreState, recordId: string, ids: seq<string>, isError: bool, asWritten: bool)
    ensures Save(st, recordId, ids, isError, asWritten).0.records.Keys <= st.records.Keys
    ensures forall id :: id !in ids ==>
      (id in Save(st, recordId, ids, isError, asWritten).0.records <==> id in st.records)
    ensures forall id :: id in Save(st, recordId, ids, isError, asWritten).0.records && id !in ids ==>
      Save(st, recordId, ids, isError, asWritten).0.records[id] == st.records[id]
    decreases |ids|
  {
    if |ids| > 0 {
      var front := ids[..|ids| - 1];
      SaveRecords(st, recordId, front, isError, asWritten);
      forall id | id !in ids ensures id in front ==> id in ids { }
    }
  }

  /** An output file without a record is always reported: the run's save does not return
      nil while a listed id has no record. */
  lemma {:induction false} MissingReported(st: StoreState, recordId: string, ids: seq<string>, isError: bool)
    requires exists i :: 0 <= i < |ids| && ids[i] !in st.records
    ensures Save(st, recordId, ids, isError, false).1 != []
    decreases |ids|
  {
    var front := ids[..|ids| - 1];
    var last := ids[|ids| - 1];
    var (st1, e1) := Save(st, recordId, front, isError, false);
    if exists i :: 0 <= i < |front| && front[i] !in st.records {
      MissingReported(st, recordId, front, isError);
    } else {
      SaveRecords(st, recordId, front, isError, false);
      assert last !in st.records;
      assert last !in st1.records;
    }
  }

  /** With distinct ids that all have records, the corrected loop reports nothing. */
  lemma {:induction false} PresentClean(st: StoreState, recordId: string, ids: seq<string>, isError: bool)
    requires Distinct(ids)
    requires forall i :: 0 <= i < |ids| ==> ids[i] in st.records
    ensures Save(st, recordId, ids, isError, false).1 == []
    decreases |ids|
  {
    if |ids| > 0 {
      var front := ids[..|ids| - 1];
      var last := ids[|ids| - 1];
      PresentClean(st, recordId, front, isError);
      SaveRecords(st, recordId, front, isError, false);
      assert last !in front by {
        forall j | 0 <= j < |front| ensures front[j] != last { }
      }
    }
  }

  /** With distinct ids, the corrected save returns nil exactly when every listed id has a
      record, on a failed run and on a successful one. */
  lemma SaveReportsExactly(st: StoreState, recordId: string, ids: seq<string>, isError: bool)
    requires Distinct(ids)
    ensures Save(st, recordId, ids, isError, false).1 == [] <==> forall i :: 0 <= i < |ids| ==> ids[i] in st.records
  {
    if forall i :: 0 <= i < |ids| ==> ids[i] in st.records {
      PresentClean(st, recordId, ids, isError);
    } else {
      MissingReported(st, recordId, ids, isError);
    }
  }

  /** A failed run removes exactly the listed records, removes bytes and links and adds none,
      keeps the links of every file not listed, and removes the bytes of each listed file. */
  lemma {:induction false} FailedRunDeletes(st: StoreState, recordId: string, ids: seq<string>, asWritten: bool)
    ensures Save(st, recordId, ids, true, asWritten).0.records == st.records - (set i | 0 <= i < |ids| :: ids[i])
    ensures var d := Save(st, recordId, ids, true, asWritten).0.disk;
      d.Keys <= st.disk.Keys && forall p :: p in d ==> d[p] == st.disk[p]
    ensures forall l :: l in Save(st, recordId, ids, true, asWritten).0.links ==> l in st.links
    ensures forall l :: l in st.links && l.fileId !in ids ==> l in Save(st, recordId, ids, true, asWritten).0.links
    ensures Distinct(ids) ==> forall i :: 0 <= i < |ids| && ids[i] in st.records ==>
      LocalPath(ids[i], st.records[ids[i]]) !in Save(st, recordId, ids, true, asWritten).0.disk
    decreases |ids|
  {
    if |ids| > 0 {
      var front := ids[..|ids| - 1];
      var last := ids[|ids| - 1];
      FailedRunDeletes(st, recordId, front, asWritten);
      var (st1, e1) := Save(st, recordId, front, true, asWritten);
      var (st2, d) := DeleteState(st1, last);
      assert Save(st, recordId, ids, true, asWritten).0 == st2 by {
        if d.Pass? && asWritten {
          assert last !in st2.records;
        }
      }
      assert st2.records == st.records - (set i | 0 <= i < |ids| :: ids[i]) by {
        assert (set i | 0 <= i < |ids| :: ids[i]) == (set i | 0 <= i < |front| :: front[i]) + {last};
      }
      forall l | l in st.links && l.fileId !in ids ensures l in st2.links {
        assert l.fileId !in front;
      }
      if Distinct(ids) {
        assert Distinct(front);
        forall i | 0 <= i < |ids| && ids[i] in st.records
          ensures LocalPath(ids[i], st.records[ids[i]]) !in st2.disk
        {
          if i < |front| {
            assert front[i] == ids[i];
          } else {
            assert last !in front by {
              forall j | 0 <= j < |front| ensures front[j] != last { }
            }
            SaveRecords(st, recordId, front, true, asWritten);
          }
        }
      }
    }
  }

  /** A successful run leaves the bytes alone, only drops records or sets the size of
      listed ones, and leaves each listed file that keeps its record with its size read
      from its bytes and linked to the run. */
  lemma {:induction false} SuccessfulRunKeeps(st: StoreState, recordId: string, ids: seq<string>)
    ensures Save(st, recordId, ids, false, false).0.disk == st.disk
    ensures forall l :: l in st.links ==> l in Save(st, recordId, ids, false, false).0.links
    ensures var r := Save(st, recordId, ids, false, false).0;
      forall id :: id in ids && id in r.records ==>
        LocalPath(id, r.records[id]) in r.disk && r.records[id].size == r.disk[LocalPath(id, r.records[id])]
        && Link(recordId, id) in r.links
    decreases |ids|
  {
    if |ids| > 0 {
      var front := ids[..|ids| - 1];
      SuccessfulRunKeeps(st, recordId, front);
      forall id | id in ids ensures id in front || id == ids[|ids| - 1] {
        var j :| 0 <= j < |ids| && ids[j] == id;
        if j < |front| {
          assert front[j] == id;
        }
      }
    }
  }

  /** The code as written leaves the tables exactly as the corrected code does, agrees
      with it on a successful run, and on a failed run reports one missing record per id. */
  lemma {:induction false} AsWrittenAgrees(st: StoreState, recordId: string, ids: seq<string>, isError: bool)
    ensures Save(st, recordId, ids, isError, true).0 == Save(st, recordId, ids, isError, false).0
    ensures !isError ==> Save(st, recordId, ids, isError, true).1 == Save(st, recordId, ids, isError, false).1
    ensures isError ==> |Save(st, recordId, ids, isError, true).1| == |ids|
    ensures isError ==> forall i :: 0 <= i < |ids| ==> Save(st, recordId, ids, isError, true).1[i] == MissingRecord
    decreases |ids|
  {
    if |ids| > 0 {
      var front := ids[..|ids| - 1];
      AsWrittenAgrees(st, recordId, front, isError);
      if isError {
        var st1 := Save(st, recordId, front, isError, true).0;
        var (st2, d) := DeleteState(st1, ids[|ids| - 1]);
        if d.Pass? {
          assert ids[|ids| - 1] !in st2.records;
        }
      }
    }
  }

  class Store {
    var records: map<string, FileRecord>
    var links: seq<Link>
    /** The local files that exist: relative path to size in bytes. */
    var disk: map<string, int>
    /** The absolute working directory that filepath.Abs resolves "./" against. */
    const workDir: string

    constructor(workDir: string)
      ensures this.workDir == workDir
      ensures records == map[] && links == [] && disk == map[]
    {
      this.workDir := workDir;
      records := map[];
      links := [];
      disk := map[];
    }

    /** The tables as one value. */
    function State(): StoreState
      reads this
    {
      StoreState(records, links, disk)
    }

    /** filepath.Abs of a path of the form "./rest". */
    function Abs(relative: string): (r: string)
      requires StartsWith(relative, "./")
      ensures r == workDir + relative[1..]
    {
      workDir + relative[1..]
    }

    /** GetFilePath: the absolute location of a recorded file. */
    function GetFilePath(id: string): (r: Result<string>)
      reads this
      ensures r.Ok? <==> id in records
      ensures r.Ok? ==> EndsWith(r.value, "/file/" + records[id].path + "/" + id + records[id].exName)
      ensures r.Err? ==> r.msg == MissingRecord
    {
      if id in records then
        AbsLocalPath(workDir, id, records[id]);
        Ok(Abs(LocalPath(id, records[id])))
      else Err(MissingRecord)
    }

    /** CreateOutputFile: records a new, still empty output file under the fresh
        id that uuid.New supplies, and returns the id and its absolute path.
        Inserting an id that is already a key fails like the database insert. */
    method CreateOutputFile(fileName: string, exName: string, freshId: string)
      returns (r: Result<(string, string)>)
      modifies this
      ensures freshId in old(records) ==> r == Err("failed to create file record") && records == old(records)
      ensures freshId !in old(records) ==>
        var ext := NormalizeExt(exName);
        && records == old(records)[freshId := FileRecord(StoredName(fileName, ext), "output", 0, ext)]
        && r == Ok((freshId, Abs("./file/output/" + freshId + ext)))
      ensures links == old(links) && disk == old(disk)
    {
      var ext := NormalizeExt(exName);
      var fullName := freshId + ext;
      var name := StoredName(fileName, ext);
      if freshId in records {
        return Err("failed to create file record");
      }
      records := records[freshId := FileRecord(name, "output", 0, ext)];
      assert "./file/output/" + fullName == "./file/output/" + freshId + ext;
      r := Ok((freshId, Abs("./file/output/" + fullName)));
    }

    /** DeleteFile: removes a file's bytes, its task links and its record. */
    method DeleteFile(id: string) returns (r: Outcome)
      modifies this
      ensures (State(), r) == DeleteState(old(State()), id)
      ensures id !in old(records) ==>
        r == Fail(MissingRecord) && records == old(records) && links == old(links) && disk == old(disk)
      ensures id in old(records) ==> r == Pass && records == old(records) - {id}
      ensures id in old(records) && LocalPath(id, old(records)[id]) !in old(disk) ==>
        links == old(links) && disk == old(disk)
      ensures id in old(records) && LocalPath(id, old(records)[id]) in old(disk) ==>
        && disk == old(disk) - {LocalPath(id, old(records)[id])}
        && links == WithoutFile(old(links), id)
    {
      if id !in records {
        return Fail(MissingRecord);
      }
      var f := records[id];
      var path := LocalPath(id, f);
      if path !in disk {
        records := records - {id};
        return Pass;
      }
      disk := disk - {path};
      links := WithoutFile(links, id);
      records := records - {id};
      r := Pass;
    }

    /** SaveOutputFile as written. On a failed run every file is first deleted,
        and the record is then looked up again, so a successful deletion is
        itself reported as a missing record. The database writes are taken to
        succeed. */
    method SaveOutputFileAsWritten(recordId: string, ids: seq<string>, isError: bool)
      returns (errs: seq<string>)
      modifies this
      ensures (State(), errs) == Save(old(State()), recordId, ids, isError, true)
      ensures isError ==> |errs| == |ids|
      ensures isError ==> forall i :: 0 <= i < |errs| ==> errs[i] == MissingRecord
    {
      ghost var st0 := State();
      errs := [];
      var i := 0;
      while i < |ids|
        invariant 0 <= i <= |ids|
        invariant (State(), errs) == Save(st0, recordId, ids[..i], isError, true)
      {
        var id := ids[i];
        assert ids[..i + 1] == ids[..i] + [id];
        SaveSnoc(st0, recordId, ids[..i], id, isError, true);
        ghost var pre, preErrs := State(), errs;
        assert preErrs + [] == preErrs;
        i := i + 1;
        if isError {
          var d := DeleteFile(id);
          if d.Fail? {
            errs := errs + [d.msg];
            continue;
          }
        }
        if id !in records {
          errs := errs + [MissingRecord];
          continue;
        }
        var f := records[id];
        var path := LocalPath(id, f);
        if path !in disk {
          records := records - {id};
          continue;
        }
        records := records[id := f.(size := disk[path])];
        links := links + [Link(recordId, id)];
      }
      assert ids[..i] == ids;
      AsWrittenAgrees(st0, recordId, ids, isError);
    }

    /** SaveOutputFile as evidently intended: on a failed run the output files
        are deleted and nothing more; on a successful run each file's size is
        recorded and the file is linked to the run, and a record whose bytes
        never appeared is dropped. Exactly the ids without a record are reported.
        The database writes are taken to succeed. */
    method SaveOutputFile(recordId: string, ids: seq<string>, isError: bool)
      returns (errs: seq<string>)
      modifies this
      ensures (State(), errs) == Save(old(State()), recordId, ids, isError, false)
      ensures forall i :: 0 <= i < |errs| ==> errs[i] == MissingRecord
      ensures |errs| <= |ids|
      ensures (exists i :: 0 <= i < |ids| && ids[i] !in old(records)) ==> errs != []
      ensures (forall i :: 0 <= i < |ids| ==> ids[i] in old(records)) && Distinct(ids) ==> errs == []
      ensures isError ==> records == old(records) - set i | 0 <= i < |ids| :: ids[i]
      ensures isError ==> disk.Keys <= old(disk).Keys && forall l :: l in links ==> l in old(links)
      ensures isError ==> forall l :: l in old(links) && l.fileId !in ids ==> l in links
      ensures isError && Distinct(ids) ==> forall i :: 0 <= i < |ids| && ids[i] in old(records) ==>
        LocalPath(ids[i], old(records)[ids[i]]) !in disk
      ensures !isError ==> records.Keys <= old(records).Keys && disk == old(disk)
      ensures !isError ==> forall id :: id in records && id in old(records) && id !in ids ==> records[id] == old(records)[id]
      ensures !isError ==> forall id :: id in ids && id in records ==>
        (LocalPath(id, records[id]) in disk && records[id].size == disk[LocalPath(id, records[id])]
         && Link(recordId, id) in links)
    {
      ghost var st0 := State();
      errs := [];
      var i := 0;
      while i < |ids|
        invariant 0 <= i <= |ids|
        invariant (State(), errs) == Save(st0, recordId, ids[..i], isError, false)
      {
        var id := ids[i];
        assert ids[..i + 1] == ids[..i] + [id];
        SaveSnoc(st0, recordId, ids[..i], id, isError, false);
        ghost var pre, preErrs := State(), errs;
        assert preErrs + [] == preErrs;
        if isError {
          var d := DeleteFile(id);
          if d.Fail? {
            errs := errs + [d.msg];
          }
          i := i + 1;
          continue;
        }
        if id !in records {
          errs := errs + [MissingRecord];
          i := i + 1;
          continue;
        }
        var f := records[id];
        var path := LocalPath(id, f);
        if path !in disk {
          records := records - {id};
          i := i + 1;
          continue;
        }
        records := records[id := f.(size := disk[path])];
        links := links + [Link(recordId, id)];
        i := i + 1;
      }
      assert ids[..i] == ids;
      SaveErrors(st0, recordId, ids, isError);
      SaveRecords(st0, recordId, ids, isError, false);
      if exists i :: 0 <= i < |ids| && ids[i] !in old(records) {
        MissingReported(st0, recordId, ids, isError);
      }
      if (forall i :: 0 <= i < |ids| ==> ids[i] in old(records)) && Distinct(ids) {
        PresentClean(st0, recordId, ids, isError);
      }
      if isError {
        FailedRunDeletes(st0, recordId, ids, false);
      } else {
        SuccessfulRunKeeps(st0, recordId, ids);
      }
    }
  }

  predicate Distinct(ids: seq<string>)
  {
    forall i, j :: 0 <= i < j < |ids| ==> ids[i] != ids[j]
  }

  /** The link rows that do not refer to the given file. */
  function WithoutFile(links: seq<Link>, fileId: string): (r: seq<Link>)
    ensures forall l :: l in r <==> l in links && l.fileId != fileId
  {
    if |links| == 0 then []
    else (if links[0].fileId == fileId then [] else [links[0]]) + WithoutFile(links[1..], fileId)
  }
}
