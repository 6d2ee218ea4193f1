/** The spool directory as the sender reads it: an entry is a spool file when it is a visible .json file. A temporary
    file carries the stamp of the spool file it was to become. */
module SpoolDirectory {
  import opened Model
  import opened Seqs
  import D = Delivery

  /** name is the stamp in the file name. batch is what the content decodes to, if it does. */
  datatype Entry = Entry(name: int, dir: bool, hidden: bool, json: bool, size: nat, batch: Option<IngestBatch>)

  predicate IsSpoolFile(e: Entry) {
    !e.dir && !e.hidden && e.json
  }

  predicate IsOther(e: Entry) {
    !IsSpoolFile(e)
  }

  function SpoolFiles(entries: seq<Entry>): seq<Entry> {
    Filter(IsSpoolFile, entries)
  }

  function Others(entries: seq<Entry>): seq<Entry> {
    Filter(IsOther, entries)
  }

  function Bytes(files: seq<Entry>): nat {
    if files == [] then 0 else files[0].size + Bytes(files[1..])
  }

  /** Listed in name order, every name before `next`. */
  ghost predicate Listed(entries: seq<Entry>, next: int) {
    && (forall i :: 0 <= i < |entries| ==> entries[i].name < next)
    && (forall i, j :: 0 <= i < j < |entries| ==> entries[i].name < entries[j].name)
  }

  function Remove(entries: seq<Entry>, name: int): (r: seq<Entry>)
    ensures forall e :: e in r ==> e in entries
  {
    if entries == [] then []
    else if entries[0].name == name then entries[1..]
    else [entries[0]] + Remove(entries[1..], name)
  }

  /** The decodable files hold these chunks, in order. */
  ghost predicate Holds(files: seq<Entry>, chunks: seq<D.Chunk>) {
    if files == [] then chunks == []
    else if files[0].batch.None? then Holds(files[1..], chunks)
    else chunks != [] && chunks[0].batch == files[0].batch.value && Holds(files[1..], chunks[1..])
  }

  lemma {:induction false} BytesAppend(files: seq<Entry>, e: Entry)
    ensures Bytes(files + [e]) == Bytes(files) + e.size
  {
    if files != [] {
      BytesAppend(files[1..], e);
      assert (files + [e])[1..] == files[1..] + [e];
    } else {
      assert files + [e] == [e];
    }
  }

  lemma {:induction false} HoldsAppend(files: seq<Entry>, chunks: seq<D.Chunk>, e: Entry, c: D.Chunk)
    requires Holds(files, chunks) && e.batch == Some(c.batch)
    ensures Holds(files + [e], chunks + [c])
  {
    if files == [] {
      assert files + [e] == [e] && chunks + [c] == [c];
    } else {
      assert (files + [e])[1..] == files[1..] + [e];
      if files[0].batch.None? {
        HoldsAppend(files[1..], chunks, e, c);
      } else {
        assert (chunks + [c])[1..] == chunks[1..] + [c];
        HoldsAppend(files[1..], chunks[1..], e, c);
      }
    }
  }

  /** Adding an entry under a later name. */
  lemma {:induction false} AddEntry(entries: seq<Entry>, e: Entry, next: int)
    requires Listed(entries, next) && e.name == next
    ensures Listed(entries + [e], next + 1)
    ensures SpoolFiles(entries + [e]) == SpoolFiles(entries) + if IsSpoolFile(e) then [e] else []
    ensures Others(entries + [e]) == Others(entries) + if IsSpoolFile(e) then [] else [e]
  {
    FilterSnoc(IsSpoolFile, entries, e);
    FilterSnoc(IsOther, entries, e);
  }

  lemma {:induction false} RemoveListed(entries: seq<Entry>, name: int, next: int)
    requires Listed(entries, next)
    ensures Listed(Remove(entries, name), next)
  {
    if entries != [] && entries[0].name != name {
      var rest := Remove(entries[1..], name);
      RemoveListed(entries[1..], name, next);
      forall j | 0 <= j < |rest| ensures entries[0].name < rest[j].name {
        assert rest[j] in entries[1..];
      }
    }
  }

  /** Removing the first spool file by its name removes that file and nothing else. */
  lemma {:induction false} RemoveFirst(entries: seq<Entry>, next: int)
    requires Listed(entries, next) && SpoolFiles(entries) != []
    ensures var r := Remove(entries, SpoolFiles(entries)[0].name);
            SpoolFiles(r) == SpoolFiles(entries)[1..] && Others(r) == Others(entries)
  {
    if !IsSpoolFile(entries[0]) {
      var name := SpoolFiles(entries)[0].name;
      var rest := Remove(entries[1..], name);
      RemoveFirst(entries[1..], next);
      assert SpoolFiles(entries)[0] in entries[1..];
      FilterCons(IsSpoolFile, entries[0], rest);
      FilterCons(IsOther, entries[0], rest);
    }
  }
}
