/**
 Runs that continue each other, over and over: each writes its log beside those
 it may have been seeded from.
 */
module Lineage {
  import opened Wrappers
  import opened Conversation
  import opened Transcript
  import opened Replay
  import opened Protocol
  import opened Chains

  /** One attempt: where its log is, and what it wrote. A process that died wrote
      only part of what it would have, which is such a log too. */
  datatype Attempt = Attempt(path: string, log: seq<Event>)

  function FilesOf(runs: seq<Attempt>): Files {
    if runs == [] then map[] else FilesOf(DropLast(runs))[Last(runs).path := Last(runs).log]
  }

  /** No reply says the continuation note, and no conversation handed over whole
      says it twice in a message. */
  ghost predicate OthersDoNotTell(log: seq<Event>) {
    forall e | e in log :: NotTheNote(e) && (e.Seed? && e.inline.Some? ==> NoteOnce(e.inline.value))
  }

  /** Attempts in the order they ran: each kept the protocol, reading its seed
      from the logs there were before it. */
  ghost predicate Lineage(hash: seq<Message> -> string, runs: seq<Attempt>) {
    runs == [] ||
    var before := FilesOf(DropLast(runs));
    && Lineage(hash, DropLast(runs))
    && Last(runs).path !in before
    && LegalLog(FilesReader(before, hash), Last(runs).log)
    && OthersDoNotTell(Last(runs).log)
  }

  /** Every log there is reads back, unless it is too deep, without a message
      that holds the note twice. */
  ghost predicate AllTellOnce(files: Files, hash: seq<Message> -> string) {
    forall p | p in files ::
      && (Reconstructed(files, hash, p).Success? || Reconstructed(files, hash, p) == Failure(SeedChainTooDeep))
      && (Reconstructed(files, hash, p).Success? ==> NoteOnce(Reconstructed(files, hash, p).value))
  }

  lemma MissingIsNotRead(files: Files, hash: seq<Message> -> string, path: string)
    ensures path !in files ==> Reconstructed(files, hash, path).Failure?
    ensures Reconstructed(files, hash, path) == Failure(SeedChainTooDeep) ||
            Reconstructed(files, hash, path).Success? ==>
              !(WalkFrom(files, [], path).Stopped? && WalkFrom(files, [], path).error.SeedSource?)
  {
    hide RebuildFrom;
  }

  lemma NewLogTellsOnce(files: Files, hash: seq<Message> -> string, path: string, log: seq<Event>)
    requires AllTellOnce(files, hash) && path !in files
    requires LegalLog(FilesReader(files, hash), log) && OthersDoNotTell(log)
    ensures var read := Reconstructed(files[path := log], hash, path);
            && (read.Success? || read == Failure(SeedChainTooDeep))
            && (read.Success? ==> NoteOnce(read.value))
  {
    hide LegalLog, Fold, Reconstructed, NoteOnce, NotTheNote, FitsBehind;
    var reader := FilesReader(files, hash);
    NewLogReadsBack(files, hash, path, log);
    forall e | e in log ensures SeedTellsOnce(reader, e) {
      assert NoteOnce([]) by { NothingToldTwice(); }
      if e.Seed? && e.inline.None? && e.sourcePath.Some? {
        MissingIsNotRead(files, hash, e.sourcePath.value);
      }
    }
    LogTellsOnce(reader, log);
  }

  lemma NothingToldTwice()
    ensures NoteOnce([])
  {
  }

  /** Along continuations of any number, whatever died when, no log comes to
      read back with a message that holds the continuation note twice. */
  lemma {:induction false} NoteOnceAlongLineage(hash: seq<Message> -> string, runs: seq<Attempt>)
    requires Lineage(hash, runs)
    ensures AllTellOnce(FilesOf(runs), hash)
  {
    hide LegalLog, Fold, Reconstructed, NoteOnce, OthersDoNotTell, WalkFrom;
    if runs != [] {
      var files, path, log := FilesOf(DropLast(runs)), Last(runs).path, Last(runs).log;
      NoteOnceAlongLineage(hash, DropLast(runs));
      NewLogTellsOnce(files, hash, path, log);
      forall p | p in files
        ensures Reconstructed(files[path := log], hash, p) == Reconstructed(files, hash, p) {
        MissingIsNotRead(files, hash, p);
        OldLogReadsTheSame(files, hash, path, log, p);
      }
    }
  }
}
