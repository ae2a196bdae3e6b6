/** The parent's life and the repairs as the code runs them on the metadata file: they are the
    acts of DownloadSessions. */
module SessionsOnFile {
  import opened Bytes
  import opened ChunkTable
  import opened MetadataCodec
  import opened MetadataObject
  import opened CriticalSections
  import opened DownloadSessions
  import W = DownloadWorkers
  import A = AtomicDownload

  // The file shows this disk, under a header that is h but for the in-use mark.
  ghost predicate Shows(h: Header, f: bytes, d: Disk) {
    Decode(f) == Loaded(h.(inUse := d.inUse), d.table)
  }

  // What the workers of a run make of the file while the parent waits for them.
  ghost predicate WorkersDo(workers: bytes -> bytes, h: Header, before: Table, after: Table) {
    forall f :: Decode(f) == Loaded(h.(inUse := 1), before) ==> Decode(workers(f)) == Loaded(h.(inUse := 1), after)
  }

  // DownloadFileFromServer in the parent: mark, fork, wait, clear the mark; after control-C the
  // handler's forced reset instead; after a crash nothing.
  method DownloadFileFromServer(metadata: Metadata, control: Fd, numClient: nat, workers: bytes -> bytes,
                                ending: Ending, ghost c: A.Config, ghost d: Disk, ghost es: seq<W.Event>,
                                ghost h: Header)
    requires Shows(h, control.contents, d) && Possible(c, d, Session(numClient, es, ending))
    requires numClient <= NPROC ==>
      WorkersDo(workers, h, d.table, W.RunOf(c, W.Start(d.table, d.file, numClient), es).disk)
    modifies metadata, control
    ensures Shows(h, control.contents, Apply(c, d, Session(numClient, es, ending)))
  {
    MarkInUse(metadata, control, 1, h.(inUse := d.inUse));
    if numClient > NPROC {
      return;  // exit(1)
    }
    control.contents := workers(control.contents);
    match ending
    case Finished =>
      MarkInUse(metadata, control, 0, h.(inUse := 1));
    case Interrupted =>
      var done := metadata.ResetDownloadingChunks(control, true);
    case Crashed =>
  }

  // mhstatus --recover.
  method RecoverMetaData(metadata: Metadata, control: Fd, force: bool, ghost c: A.Config, ghost d: Disk,
                         ghost h: Header)
    requires Shows(h, control.contents, d)
    modifies metadata, control
    ensures Shows(h, control.contents, Apply(c, d, Recover(force)))
  {
    var done := metadata.ResetDownloadingChunks(control, force);
  }

  // mhstatus --reset.
  method ResetMetaData(metadata: Metadata, control: Fd, force: bool, ghost c: A.Config, ghost d: Disk, ghost h: Header)
    requires Shows(h, control.contents, d)
    modifies metadata, control
    ensures Shows(h, control.contents, Apply(c, d, Reset(force)))
  {
    var done := metadata.ResetAllChunks(control, force);
  }

  // mhstatus --check.
  method CheckChunkData(metadata: Metadata, control: Fd, data: Fd, ghost c: A.Config, md5: bytes -> Digest,
                        ghost d: Disk, ghost h: Header)
    requires Shows(h, control.contents, d) && control != data && data.pos == 0 && data.contents == d.file
    requires md5 == c.md5 && SizesNonNegative(d.table)
    modifies metadata, control, data`pos
    ensures Shows(h, control.contents, Apply(c, d, Check))
  {
    var ok := metadata.CheckDataChunks(control, data, md5);
  }
}
