/**
  The protection queue: committed operations waiting as request files, the scheduler that replicates
  them in batches while new ones arrive, and the consumer of its result receipts.
 */
module ReplicationQueue {
  import opened Wrappers
  import opened OperationBatch
  import Sorting

  /** A request file: a protection operation, or any other reason to replicate. */
  datatype Document = Protection(marker: Marker) | OtherReason(job: string)

  type Folder = map<string, Document>

  /** A queue file by its folder and stem. */
  datatype Place = Requested(stem: string) | Deferred(stem: string)

  datatype ResultState = ResultPending | ResultAccepted | ResultIndeterminate

  /** The public receipt of one operation. */
  datatype Receipt = Receipt(sequence: nat, state: ResultState, bundleId: string, bundleSha: Option<string>, generation: nat)

  datatype RowState = Pending | Accepted | Indeterminate | Failed | Cancelled

  /** The facts of an acceptance. */
  datatype Facts = Facts(bundleId: string, bundleSha: string, generation: nat)

  datatype Row = Row(sequence: nat, state: RowState, facts: Option<Facts>)

  /** A run in progress: the files it picked and the operations in its batch. */
  datatype Run = Run(files: set<Place>, markers: map<string, Marker>, bundleId: string, generation: nat)

  /** A replication that succeeded: its facts and the operations it carried. */
  datatype Replication = Replication(facts: Facts, operations: set<string>)

  /** The queue on disk, the rows, the run in progress, and the history of the whole system. */
  datatype System = System(
    requests: Folder,
    deferred: Folder,
    receipts: map<string, Receipt>,
    rows: map<string, Row>,
    run: Option<Run>,
    queued: set<string>,
    jobs: set<string>,
    successes: set<Replication>)

  function Start(): System {
    System(map[], map[], map[], map[], None, {}, {}, {})
  }

  // ---------------------------------------------------------------------------------------------
  // Picking the files of a run

  function Find(s: System, place: Place): Option<Document> {
    match place
    case Requested(stem) => if stem in s.requests then Some(s.requests[stem]) else None
    case Deferred(stem) => if stem in s.deferred then Some(s.deferred[stem]) else None
  }

  function Places(s: System): set<Place> {
    (set stem | stem in s.requests :: Requested(stem)) + (set stem | stem in s.deferred :: Deferred(stem))
  }

  /** A protection request names its own operation. */
  predicate NamesItself(stem: string, document: Document) {
    document.Protection? && document.marker.operationId == stem
  }

  predicate CriticalAt(s: System, place: Place) {
    Find(s, place).Some? && NamesItself(place.stem, Find(s, place).value)
  }

  /** The protection requests that a scan can read. */
  function CriticalFiles(s: System, unreadable: set<Place>): set<Place> {
    set place | place in Places(s) && place !in unreadable && CriticalAt(s, place)
  }

  function Stems(files: set<Place>): set<string> {
    set place | place in files :: place.stem
  }

  function MarkerOf(s: System, files: set<Place>, stem: string): Marker
    requires (forall place :: place in files ==> CriticalAt(s, place)) && stem in Stems(files)
  {
    assert forall place :: place in files && place.stem == stem ==> place == Requested(stem) || place == Deferred(stem);
    var place := if Requested(stem) in files then Requested(stem) else Deferred(stem);
    assert CriticalAt(s, place);
    Find(s, place).value.marker
  }

  /** The operations of a batch; an operation that waits in both folders is one operation. */
  function MarkersOf(s: System, files: set<Place>): map<string, Marker>
    requires forall place :: place in files ==> CriticalAt(s, place)
  {
    map stem | stem in Stems(files) :: MarkerOf(s, files, stem)
  }

  /** The first file of a folder in name order. */
  predicate FirstOf(folder: Folder, stem: string) {
    stem in folder && forall other :: other in folder ==> Sorting.TextBefore(stem, other)
  }

  /** Without a readable protection request: the first waiting file, or the first deferred one, or none. */
  predicate OtherPick(s: System, files: set<Place>) {
    if s.requests != map[] then exists stem | stem in s.requests :: FirstOf(s.requests, stem) && files == {Requested(stem)}
    else if s.deferred != map[] then exists stem | stem in s.deferred :: FirstOf(s.deferred, stem) && files == {Deferred(stem)}
    else files == {}
  }

  /** The run that a scan starts. */
  predicate Starts(s: System, unreadable: set<Place>, run: Run) {
    var critical := CriticalFiles(s, unreadable);
    if critical != {} then
      run.files == critical && run.markers == MarkersOf(s, critical)
    else
      OtherPick(s, run.files) && run.markers == map[]
  }

  // ---------------------------------------------------------------------------------------------
  // Finishing a run

  function WithReceipts(receipts: map<string, Receipt>, run: Run, state: ResultState, sha: Option<string>): map<string, Receipt> {
    map id | id in receipts.Keys + run.markers.Keys ::
      if id in run.markers then Receipt(run.markers[id].sequence, state, run.bundleId, sha, run.generation) else receipts[id]
  }

  predicate Open(state: RowState) {
    state.Pending? || state.Indeterminate?
  }

  /** Accept the open rows of a batch directly; the updates in `failing` do not happen. */
  function WithAccepted(rows: map<string, Row>, run: Run, sha: Option<string>, failing: set<string>): map<string, Row> {
    map id | id in rows ::
      var row := rows[id];
      if id in run.markers && id !in failing && run.markers[id].sequence == row.sequence && Open(row.state) then
        Row(row.sequence, Accepted, Some(Facts(run.bundleId, if sha.Some? then sha.value else "", run.generation)))
      else row
  }

  /** The stems of the picked files of one folder whose removal or move works. */
  function RequestedStems(run: Run, stuck: set<Place>): set<string> {
    set place | place in run.files && place.Requested? && place !in stuck :: place.stem
  }

  function DeferredStems(run: Run, stuck: set<Place>): set<string> {
    set place | place in run.files && place.Deferred? && place !in stuck :: place.stem
  }

  /** After a successful replication: receipts, rows, and the picked files are gone, except the stuck ones. */
  function Succeeded(s: System, sha: Option<string>, failing: set<string>, stuck: set<Place>): System
    requires s.run.Some?
  {
    var run := s.run.value;
    s.(requests := s.requests - RequestedStems(run, stuck),
       deferred := s.deferred - DeferredStems(run, stuck),
       receipts := WithReceipts(s.receipts, run, ResultAccepted, sha),
       rows := WithAccepted(s.rows, run, sha, failing),
       run := None,
       successes := s.successes + {Replication(Facts(run.bundleId, if sha.Some? then sha.value else "", run.generation), run.markers.Keys)})
  }

  /** After a failed replication: receipts, and the picked requests are deferred, except the stuck ones. */
  function Postponed(s: System, stuck: set<Place>): System
    requires s.run.Some?
  {
    var run := s.run.value;
    var moved := map stem | stem in s.requests && stem in RequestedStems(run, stuck) :: s.requests[stem];
    s.(requests := s.requests - RequestedStems(run, stuck),
       deferred := s.deferred + moved,
       receipts := WithReceipts(s.receipts, run, ResultIndeterminate, None),
       run := None)
  }

  // ---------------------------------------------------------------------------------------------
  // The consumer

  predicate HexDigest(text: string) {
    |text| == 64 && forall k :: 0 <= k < |text| ==> '0' <= text[k] <= '9' || 'a' <= text[k] <= 'f'
  }

  /** Apply a receipt to a row that is not final. */
  function Synchronised(row: Row, receipt: Option<Receipt>): Row {
    if !Open(row.state) || receipt.None? || receipt.value.sequence != row.sequence then row
    else
      match receipt.value.state
      case ResultPending => row.(state := Pending)
      case ResultIndeterminate => row.(state := Indeterminate)
      case ResultAccepted =>
        if receipt.value.bundleSha.Some? && HexDigest(receipt.value.bundleSha.value) && receipt.value.generation >= 1 then
          Row(row.sequence, Accepted, Some(Facts(receipt.value.bundleId, receipt.value.bundleSha.value, receipt.value.generation)))
        else row
  }

  // ---------------------------------------------------------------------------------------------
  // The system

  /** One thing that happens. A run is interrupted when its process ends before it removes or moves anything. */
  datatype Event = Create(marker: Marker)
    | Enqueue(marker: Marker)
    | EnqueueOther(job: string)
    | Begin(unreadable: set<Place>, run: Run)
    | Succeed(sha: Option<string>, failing: set<string>, stuck: set<Place>)
    | Fail(stuck: set<Place>)
    | Interrupt
    | Sync(operation: string)

  /** Operations and other jobs have distinct identifiers, and a marker repeats its row. */
  predicate Enabled(s: System, event: Event) {
    match event
    case Create(marker) => marker.operationId !in s.rows && marker.operationId !in s.jobs
    case Enqueue(marker) => marker.operationId in s.rows && s.rows[marker.operationId].sequence == marker.sequence
    case EnqueueOther(job) => job !in s.rows
    case Begin(unreadable, run) => s.run.None? && Starts(s, unreadable, run)
    case Succeed(_, _, _) => s.run.Some?
    case Fail(_) => s.run.Some?
    case Interrupt => s.run.Some?
    case Sync(operation) => operation in s.rows
  }

  function Next(s: System, event: Event): System
    requires Enabled(s, event)
  {
    match event
    case Create(marker) => s.(rows := s.rows[marker.operationId := Row(marker.sequence, Pending, None)])
    case Enqueue(marker) => s.(requests := s.requests[marker.operationId := Protection(marker)], queued := s.queued + {marker.operationId})
    case EnqueueOther(job) => s.(requests := s.requests[job := OtherReason(job)], jobs := s.jobs + {job})
    case Begin(unreadable, run) => s.(run := Some(run), receipts := WithReceipts(s.receipts, run, ResultPending, None))
    case Succeed(sha, failing, stuck) => Succeeded(s, sha, failing, stuck)
    case Fail(stuck) => Postponed(s, stuck)
    case Interrupt => s.(run := None)
    case Sync(operation) =>
      var receipt := if operation in s.receipts then Some(s.receipts[operation]) else None;
      s.(rows := s.rows[operation := Synchronised(s.rows[operation], receipt)])
  }

  predicate AllEnabled(s: System, events: seq<Event>)
    decreases events
  {
    events == [] || (Enabled(s, events[0]) && AllEnabled(Next(s, events[0]), events[1..]))
  }

  function After(s: System, events: seq<Event>): System
    requires AllEnabled(s, events)
    decreases events
  {
    if events == [] then s else After(Next(s, events[0]), events[1..])
  }

  // ---------------------------------------------------------------------------------------------
  // Conservation

  predicate Waiting(s: System, operation: string) {
    CriticalAt(s, Requested(operation)) || CriticalAt(s, Deferred(operation))
  }

  predicate Replicated(s: System, operation: string) {
    exists success | success in s.successes :: operation in success.operations
  }

  /** What every file is: a protection request of a queued operation, or another job. */
  predicate FolderOk(folder: Folder, s: System) {
    forall stem :: stem in folder ==>
      if NamesItself(stem, folder[stem]) then stem in s.queued && stem in s.rows && folder[stem].marker.sequence == s.rows[stem].sequence
      else stem in s.jobs
  }

  /** The run in progress carries the operations of its files, or has at most one other file. */
  predicate RunOk(s: System, run: Run) {
    && (run.markers.Keys == Stems(run.files) || (run.markers == map[] && |run.files| <= 1))
    && forall id :: id in run.markers ==> id in s.queued && id in s.rows && run.markers[id].sequence == s.rows[id].sequence
  }

  ghost predicate Names(s: System) {
    && s.queued <= s.rows.Keys && s.jobs !! s.rows.Keys
    && FolderOk(s.requests, s) && FolderOk(s.deferred, s)
    && (s.run.Some? ==> RunOk(s, s.run.value))
  }

  ghost predicate Conserved(s: System) {
    forall operation :: operation in s.queued ==> Waiting(s, operation) || Replicated(s, operation)
  }

  /** An acceptance comes from a successful replication that carried the operation. */
  predicate Justified(s: System, operation: string, facts: Facts) {
    exists success | success in s.successes :: success.facts == facts && operation in success.operations
  }

  ghost predicate Acceptances(s: System) {
    && (forall id :: id in s.rows && s.rows[id].state == Accepted ==> s.rows[id].facts.Some? && Justified(s, id, s.rows[id].facts.value))
    && (forall id :: id in s.receipts && s.receipts[id].state == ResultAccepted ==>
      Justified(s, id, Facts(s.receipts[id].bundleId, if s.receipts[id].bundleSha.Some? then s.receipts[id].bundleSha.value else "", s.receipts[id].generation)))
  }

  // ---------------------------------------------------------------------------------------------
  // Each event

  lemma PickIsSmall(s: System, files: set<Place>)
    requires OtherPick(s, files)
    ensures |files| <= 1 && files <= Places(s)
  {
    if s.requests != map[] {
      var stem :| stem in s.requests && FirstOf(s.requests, stem) && files == {Requested(stem)};
    } else if s.deferred != map[] {
      var stem :| stem in s.deferred && FirstOf(s.deferred, stem) && files == {Deferred(stem)};
    }
  }

  lemma BeginKeepsNames(s: System, unreadable: set<Place>, run: Run)
    requires Names(s) && Enabled(s, Begin(unreadable, run))
    ensures Names(Next(s, Begin(unreadable, run)))
  {
    hide OtherPick;
    var critical := CriticalFiles(s, unreadable);
    if critical == {} {
      PickIsSmall(s, run.files);
    } else {
      MarkersMatch(s, critical);
    }
  }

  lemma SucceedKeepsNames(s: System, sha: Option<string>, failing: set<string>, stuck: set<Place>)
    requires Names(s) && s.run.Some?
    ensures Names(Succeeded(s, sha, failing, stuck))
  {
  }

  lemma PostponeKeepsNames(s: System, stuck: set<Place>)
    requires Names(s) && s.run.Some?
    ensures Names(Postponed(s, stuck))
  {
  }

  lemma NextKeepsNames(s: System, event: Event)
    requires Names(s) && Enabled(s, event)
    ensures Names(Next(s, event))
  {
    match event {
      case Begin(unreadable, run) => BeginKeepsNames(s, unreadable, run);
      case Succeed(sha, failing, stuck) => SucceedKeepsNames(s, sha, failing, stuck);
      case Fail(stuck) => PostponeKeepsNames(s, stuck);
      case _ =>
    }
  }

  /** A postponed protection request waits in one of the two folders. */
  lemma PostponeKeepsWaiting(s: System, stuck: set<Place>, operation: string)
    requires Names(s) && s.run.Some? && operation in s.queued && Waiting(s, operation)
    ensures Waiting(Postponed(s, stuck), operation)
  {
    var after := Postponed(s, stuck);
    assert operation in s.requests ==> NamesItself(operation, s.requests[operation]);
    if CriticalAt(s, Requested(operation)) {
      if operation in RequestedStems(s.run.value, stuck) {
        assert CriticalAt(after, Deferred(operation));
      } else {
        assert CriticalAt(after, Requested(operation));
      }
    } else {
      assert CriticalAt(after, Deferred(operation));
    }
  }

  /** The queue loses an operation: its protection request is the one file of a successful run that is no batch. */
  predicate Loses(s: System, stuck: set<Place>, operation: string)
    requires s.run.Some?
  {
    var run := s.run.value;
    && run.markers == map[]
    && !Replicated(s, operation)
    && (exists place | place in run.files :: place.stem == operation && CriticalAt(s, place) && place !in stuck)
    && !(CriticalAt(s, Requested(operation)) && Requested(operation) !in run.files)
    && !(CriticalAt(s, Deferred(operation)) && Deferred(operation) !in run.files)
  }

  lemma SuccessReplicates(s: System, sha: Option<string>, failing: set<string>, stuck: set<Place>, operation: string)
    requires s.run.Some?
    ensures Replicated(Succeeded(s, sha, failing, stuck), operation) <==> Replicated(s, operation) || operation in s.run.value.markers
  {
    var run := s.run.value;
    var added := Replication(Facts(run.bundleId, if sha.Some? then sha.value else "", run.generation), run.markers.Keys);
    var after := Succeeded(s, sha, failing, stuck);
    assert added in after.successes;
    if Replicated(s, operation) {
      var success :| success in s.successes && operation in success.operations;
      assert success in after.successes;
    }
  }

  lemma StillWaiting(s: System, sha: Option<string>, failing: set<string>, stuck: set<Place>, place: Place)
    requires s.run.Some? && CriticalAt(s, place)
    ensures CriticalAt(Succeeded(s, sha, failing, stuck), place) <==> place !in s.run.value.files || place in stuck
  {
  }

  /** A successful run keeps a queued operation exactly when it does not lose it. */
  lemma SuccessConservesIff(s: System, sha: Option<string>, failing: set<string>, stuck: set<Place>, operation: string)
    requires Names(s) && s.run.Some? && operation in s.queued && (Waiting(s, operation) || Replicated(s, operation))
    ensures var after := Succeeded(s, sha, failing, stuck);
            Waiting(after, operation) || Replicated(after, operation) <==> !Loses(s, stuck, operation)
  {
    var run, after := s.run.value, Succeeded(s, sha, failing, stuck);
    SuccessReplicates(s, sha, failing, stuck, operation);
    assert !CriticalAt(s, Requested(operation)) ==> !CriticalAt(after, Requested(operation));
    assert !CriticalAt(s, Deferred(operation)) ==> !CriticalAt(after, Deferred(operation));
    if CriticalAt(s, Requested(operation)) {
      StillWaiting(s, sha, failing, stuck, Requested(operation));
    }
    if CriticalAt(s, Deferred(operation)) {
      StillWaiting(s, sha, failing, stuck, Deferred(operation));
    }
    hide Succeeded, Replicated, Names, CriticalAt;
    assert RunOk(s, run) by { NamesRun(s); }
    forall place | place in run.files && place.stem == operation
      ensures place == Requested(operation) || place == Deferred(operation)
      ensures run.markers != map[] ==> operation in run.markers
    {
      assert operation in Stems(run.files);
    }
    if |run.files| <= 1 {
      AtMostOne(run.files, Requested(operation), Deferred(operation));
    }
  }

  lemma NamesRun(s: System)
    requires Names(s) && s.run.Some?
    ensures RunOk(s, s.run.value)
  {
  }

  lemma AtMostOne(files: set<Place>, a: Place, b: Place)
    requires a != b
    ensures a in files && b in files ==> |files| >= 2
  {
    if a in files && b in files {
      assert files == {a, b} + (files - {a, b});
    }
  }

  lemma MarkersMatch(s: System, files: set<Place>)
    requires Names(s) && forall place :: place in files ==> CriticalAt(s, place)
    ensures var markers := MarkersOf(s, files);
            && markers.Keys == Stems(files)
            && forall id :: id in markers ==> id in s.queued && id in s.rows && markers[id].sequence == s.rows[id].sequence
  {
    var markers := MarkersOf(s, files);
    forall id | id in markers
      ensures id in s.queued && id in s.rows && markers[id].sequence == s.rows[id].sequence
    {
      var place := if Requested(id) in files then Requested(id) else Deferred(id);
      assert forall p :: p in files && p.stem == id ==> p == Requested(id) || p == Deferred(id);
      assert CriticalAt(s, place);
    }
  }

  // ---------------------------------------------------------------------------------------------
  // Whole runs

  /** No scan of a run misses a protection request that the run then picks as its other file. */
  predicate Readable(s: System, event: Event) {
    event.Begin? ==> forall place :: place in event.run.files && CriticalAt(s, place) ==> place !in event.unreadable
  }

  predicate AllReadable(s: System, events: seq<Event>)
    requires AllEnabled(s, events)
    decreases events
  {
    events == [] || (Readable(s, events[0]) && AllReadable(Next(s, events[0]), events[1..]))
  }

  /** A run that is no batch has no protection request among its files. */
  ghost predicate OthersOnly(s: System) {
    s.run.Some? && s.run.value.markers == map[] ==> forall place :: place in s.run.value.files ==> place.stem in s.jobs
  }

  lemma BeginOthersOnly(s: System, unreadable: set<Place>, run: Run)
    requires Names(s) && Enabled(s, Begin(unreadable, run)) && Readable(s, Begin(unreadable, run))
    ensures OthersOnly(Next(s, Begin(unreadable, run)))
  {
    var critical := CriticalFiles(s, unreadable);
    if critical == {} {
      PickIsSmall(s, run.files);
      forall place | place in run.files
        ensures place.stem in s.jobs
      {
        assert place in Places(s);
        assert !CriticalAt(s, place);
      }
    } else {
      MarkersMatch(s, critical);
      var place :| place in critical;
      assert place.stem in Stems(critical);
      assert place.stem in run.markers;
    }
  }

  lemma NextKeepsOthersOnly(s: System, event: Event)
    requires Names(s) && OthersOnly(s) && Enabled(s, event) && Readable(s, event)
    ensures OthersOnly(Next(s, event))
  {
    match event {
      case Begin(unreadable, run) => BeginOthersOnly(s, unreadable, run);
      case _ =>
    }
  }

  lemma NothingLost(s: System, stuck: set<Place>, operation: string)
    requires Names(s) && OthersOnly(s) && s.run.Some? && operation in s.queued
    ensures !Loses(s, stuck, operation)
  {
  }

  lemma EnqueueConserves(s: System, marker: Marker, operation: string)
    requires Names(s) && Enabled(s, Enqueue(marker)) && (Waiting(s, operation) || operation == marker.operationId)
    ensures Waiting(Next(s, Enqueue(marker)), operation)
  {
    var after := Next(s, Enqueue(marker));
    assert operation == marker.operationId ==> CriticalAt(after, Requested(operation));
    assert CriticalAt(s, Requested(operation)) && operation != marker.operationId ==> CriticalAt(after, Requested(operation));
    assert CriticalAt(s, Deferred(operation)) ==> CriticalAt(after, Deferred(operation));
  }

  lemma OtherConserves(s: System, job: string, operation: string)
    requires Names(s) && Enabled(s, EnqueueOther(job)) && Waiting(s, operation) && operation in s.queued
    ensures Waiting(Next(s, EnqueueOther(job)), operation)
  {
    var after := Next(s, EnqueueOther(job));
    assert CriticalAt(s, Requested(operation)) ==> CriticalAt(after, Requested(operation));
    assert CriticalAt(s, Deferred(operation)) ==> CriticalAt(after, Deferred(operation));
  }

  lemma SameFilesConserve(s: System, after: System, operation: string)
    requires after.requests == s.requests && after.deferred == s.deferred && after.successes == s.successes
    ensures Waiting(after, operation) <==> Waiting(s, operation)
    ensures Replicated(after, operation) <==> Replicated(s, operation)
  {
  }

  /** Under the readability of what a run picks, no event loses a queued operation. */
  lemma NextConserves(s: System, event: Event)
    requires Names(s) && OthersOnly(s) && Conserved(s) && Enabled(s, event)
    ensures Conserved(Next(s, event))
  {
    hide Names, OthersOnly, Waiting, Replicated, Loses, Succeeded, Postponed;
    var after := Next(s, event);
    forall operation | operation in after.queued
      ensures Waiting(after, operation) || Replicated(after, operation)
    {
      match event {
        case Enqueue(marker) =>
          ReplicatedKept(s, after, operation);
          if operation == marker.operationId || Waiting(s, operation) {
            EnqueueConserves(s, marker, operation);
          }
        case EnqueueOther(job) =>
          ReplicatedKept(s, after, operation);
          if Waiting(s, operation) {
            OtherConserves(s, job, operation);
          }
        case Succeed(sha, failing, stuck) =>
          QueuedKept(s, event);
          SuccessConservesIff(s, sha, failing, stuck, operation);
          NothingLost(s, stuck, operation);
        case Fail(stuck) =>
          QueuedKept(s, event);
          PostponedReplicated(s, stuck, operation);
          if Waiting(s, operation) {
            PostponeKeepsWaiting(s, stuck, operation);
          }
        case _ => SameFilesConserve(s, after, operation);
      }
    }
  }

  lemma QueuedKept(s: System, event: Event)
    requires Enabled(s, event) && (event.Succeed? || event.Fail?)
    ensures Next(s, event).queued == s.queued
  {
  }

  lemma ReplicatedKept(s: System, after: System, operation: string)
    requires after.successes == s.successes
    ensures Replicated(after, operation) <==> Replicated(s, operation)
  {
  }

  lemma PostponedReplicated(s: System, stuck: set<Place>, operation: string)
    requires s.run.Some?
    ensures Replicated(Postponed(s, stuck), operation) <==> Replicated(s, operation)
  {
  }

  lemma JustifiedGrows(s: System, after: System, id: string, facts: Facts)
    requires s.successes <= after.successes && Justified(s, id, facts)
    ensures Justified(after, id, facts)
  {
    var success :| success in s.successes && success.facts == facts && id in success.operations;
    assert success in after.successes;
  }

  lemma SucceedKeepsAcceptances(s: System, sha: Option<string>, failing: set<string>, stuck: set<Place>)
    requires Acceptances(s) && s.run.Some?
    ensures Acceptances(Succeeded(s, sha, failing, stuck))
  {
    var after, run := Succeeded(s, sha, failing, stuck), s.run.value;
    var facts := Facts(run.bundleId, if sha.Some? then sha.value else "", run.generation);
    var added := Replication(facts, run.markers.Keys);
    assert added in after.successes;
    forall id | id in run.markers
      ensures Justified(after, id, facts)
    {
      assert id in added.operations;
    }
    forall id, other | Justified(s, id, other)
      ensures Justified(after, id, other)
    {
      JustifiedGrows(s, after, id, other);
    }
    hide Justified;
  }

  lemma NextKeepsAcceptances(s: System, event: Event)
    requires Acceptances(s) && Enabled(s, event)
    ensures Acceptances(Next(s, event))
  {
    var after := Next(s, event);
    if event.Succeed? {
      SucceedKeepsAcceptances(s, event.sha, event.failing, event.stuck);
    } else {
      OthersKeepSuccesses(s, event);
      forall id, facts | Justified(s, id, facts)
        ensures Justified(after, id, facts)
      {
        JustifiedGrows(s, after, id, facts);
      }
      hide Justified, HexDigest, Starts, Succeeded;
    }
  }

  lemma OthersKeepSuccesses(s: System, event: Event)
    requires Enabled(s, event) && !event.Succeed?
    ensures Next(s, event).successes == s.successes
  {
  }

  lemma {:induction false} RunKeeps(s: System, events: seq<Event>)
    requires Names(s) && Acceptances(s) && AllEnabled(s, events)
    ensures Names(After(s, events)) && Acceptances(After(s, events))
    ensures OthersOnly(s) && Conserved(s) && AllReadable(s, events) ==> Conserved(After(s, events))
    decreases events
  {
    hide Names, Acceptances, OthersOnly, Conserved, Enabled, Next, Readable;
    if events != [] {
      NextKeepsNames(s, events[0]);
      NextKeepsAcceptances(s, events[0]);
      if OthersOnly(s) && Conserved(s) && AllReadable(s, events) {
        NextKeepsOthersOnly(s, events[0]);
        NextConserves(s, events[0]);
      }
      RunKeeps(Next(s, events[0]), events[1..]);
    }
  }

  lemma StartOk()
    ensures Names(Start()) && Acceptances(Start()) && OthersOnly(Start()) && Conserved(Start())
  {
  }

  /**
    Over any sequence of enqueues and scheduler runs, with failures, stuck files and interruptions
    anywhere, every queued protection operation still waits in one of the folders or was carried by a
    successful replication, as long as no scan missed a protection request that its run then picked.
   */
  lemma QueueConserves(events: seq<Event>, operation: string)
    requires AllEnabled(Start(), events) && AllReadable(Start(), events)
    requires operation in After(Start(), events).queued
    ensures var s := After(Start(), events); Waiting(s, operation) || Replicated(s, operation)
  {
    StartOk();
    RunKeeps(Start(), events);
    hide After, AllEnabled, AllReadable;
  }

  /** Every acceptance a row shows names a successful replication that carried the operation, with the same facts. */
  lemma AcceptedMeansReplicated(events: seq<Event>, operation: string)
    requires AllEnabled(Start(), events)
    requires var s := After(Start(), events); operation in s.rows && s.rows[operation].state == Accepted
    ensures var s := After(Start(), events); s.rows[operation].facts.Some? && Justified(s, operation, s.rows[operation].facts.value)
  {
    StartOk();
    RunKeeps(Start(), events);
    hide After, AllEnabled;
  }

  /** Once a row is accepted, its facts never change again, and its state neither. */
  lemma {:induction false} AcceptanceIsFinal(s: System, events: seq<Event>, operation: string)
    requires AllEnabled(s, events) && operation in s.rows && s.rows[operation].state == Accepted
    ensures operation in After(s, events).rows && After(s, events).rows[operation] == s.rows[operation]
    decreases events
  {
    if events != [] {
      NextKeepsAccepted(s, events[0], operation);
      hide Next, Enabled;
      AcceptanceIsFinal(Next(s, events[0]), events[1..], operation);
    }
  }

  lemma NextKeepsAccepted(s: System, event: Event, operation: string)
    requires Enabled(s, event) && operation in s.rows && s.rows[operation].state == Accepted
    ensures operation in Next(s, event).rows && Next(s, event).rows[operation] == s.rows[operation]
  {
    hide HexDigest, Starts;
  }

  // ---------------------------------------------------------------------------------------------
  // Digests of accepted rows

  /** The replication outputs of all successful runs are among these digests; nothing stands for an output of another shape. */
  predicate OutputsFrom(events: seq<Event>, outputs: set<Option<string>>) {
    forall k :: 0 <= k < |events| ==> events[k].Succeed? ==> events[k].sha in outputs
  }

  predicate FullDigests(s: System) {
    forall id :: id in s.rows && s.rows[id].state == Accepted ==> s.rows[id].facts.Some? && HexDigest(s.rows[id].facts.value.bundleSha)
  }

  predicate AllFull(outputs: set<Option<string>>) {
    forall sha :: sha in outputs ==> sha.Some? && HexDigest(sha.value)
  }

  /** Every run of the system whose outputs are among these leaves accepted rows with full digests only. */
  ghost predicate RowsGetFullDigests(outputs: set<Option<string>>) {
    forall events :: AllEnabled(Start(), events) && OutputsFrom(events, outputs) ==> FullDigests(After(Start(), events))
  }

  lemma NextKeepsFull(s: System, event: Event)
    requires Enabled(s, event) && FullDigests(s) && (event.Succeed? ==> event.sha.Some? && HexDigest(event.sha.value))
    ensures FullDigests(Next(s, event))
  {
    hide HexDigest, Starts, WithReceipts;
  }

  lemma {:induction false} RunKeepsFull(s: System, events: seq<Event>, outputs: set<Option<string>>)
    requires AllEnabled(s, events) && FullDigests(s) && OutputsFrom(events, outputs) && AllFull(outputs)
    ensures FullDigests(After(s, events))
    decreases events
  {
    hide HexDigest, FullDigests, Next, Enabled;
    if events != [] {
      NextKeepsFull(s, events[0]);
      RunKeepsFull(Next(s, events[0]), events[1..], outputs);
    }
  }

  /** The scheduler writes what the script printed: one protection request, replicated with such an output. */
  lemma MalformedOutputIsStored(output: Option<string>, outputs: set<Option<string>>) returns (events: seq<Event>)
    requires output in outputs && !(output.Some? && HexDigest(output.value))
    ensures AllEnabled(Start(), events) && OutputsFrom(events, outputs) && !FullDigests(After(Start(), events))
  {
    var marker := Marker("op", 1, "t", "r", None);
    var run := Run({Requested("op")}, map["op" := marker], "bundle", 1);
    var begin, succeed := Begin({}, run), Succeed(output, {}, {});
    events := [Create(marker)] + ([Enqueue(marker)] + ([begin] + ([succeed] + [])));
    var s1 := Next(Start(), Create(marker));
    var s2 := Next(s1, Enqueue(marker));
    PickedAlone(s2, marker);
    var s3 := Next(s2, begin);
    OneMore(s3, succeed, []);
    OneMore(s2, begin, [succeed] + []);
    OneMore(s1, Enqueue(marker), [begin] + ([succeed] + []));
    OneMore(Start(), Create(marker), [Enqueue(marker)] + ([begin] + ([succeed] + [])));
    EmptyIsNoDigest();
    hide HexDigest;
    var after := Next(s3, succeed);
    assert after.rows["op"].state == Accepted;
  }

  lemma EmptyIsNoDigest()
    ensures !HexDigest("")
  {
  }

  lemma PickedAlone(s: System, marker: Marker)
    requires marker.operationId == "op" && s.requests == map["op" := Protection(marker)] && s.deferred == map[]
    ensures Starts(s, {}, Run({Requested("op")}, map["op" := marker], "bundle", 1))
  {
    assert CriticalAt(s, Requested("op")) && Requested("op") in Places(s);
    assert CriticalFiles(s, {}) == {Requested("op")};
    assert Stems({Requested("op")}) == {"op"};
    assert MarkersOf(s, {Requested("op")}) == map["op" := marker];
  }

  /**
    Accepted rows always hold full digests if and only if every replication output is a full digest: the
    consumer checks a receipt before it counts, the scheduler's own update does not.
   */
  lemma FullDigestsIff(outputs: set<Option<string>>)
    ensures RowsGetFullDigests(outputs) <==> AllFull(outputs)
  {
    hide HexDigest, FullDigests, OutputsFrom, AllEnabled;
    if AllFull(outputs) {
      forall events | AllEnabled(Start(), events) && OutputsFrom(events, outputs)
        ensures FullDigests(After(Start(), events))
      {
        StartFull();
        RunKeepsFull(Start(), events, outputs);
      }
    } else {
      var output :| output in outputs && !(output.Some? && HexDigest(output.value));
      var events := MalformedOutputIsStored(output, outputs);
    }
  }

  lemma StartFull()
    ensures FullDigests(Start())
  {
  }

  lemma OneMore(s: System, event: Event, rest: seq<Event>)
    requires Enabled(s, event) && AllEnabled(Next(s, event), rest)
    ensures AllEnabled(s, [event] + rest) && After(s, [event] + rest) == After(Next(s, event), rest)
  {
    hide Enabled, Next;
    assert ([event] + rest)[1..] == rest;
  }

  /** A protection request that a scan cannot read is picked as an ordinary file, and a success then removes it. */
  lemma UnreadableRequestIsLost(bundle: string)
    ensures var marker := Marker("op", 1, "t", "r", None);
            var run := Run({Requested("op")}, map[], bundle, 1);
            var events := [Create(marker)] + ([Enqueue(marker)] + ([Begin({Requested("op")}, run)] + ([Succeed(None, {}, {})] + [])));
            && AllEnabled(Start(), events)
            && "op" in After(Start(), events).queued
            && !Waiting(After(Start(), events), "op") && !Replicated(After(Start(), events), "op")
  {
    var marker := Marker("op", 1, "t", "r", None);
    var run := Run({Requested("op")}, map[], bundle, 1);
    var begin, succeed := Begin({Requested("op")}, run), Succeed(None, {}, {});
    var s1 := Next(Start(), Create(marker));
    var s2 := Next(s1, Enqueue(marker));
    assert FirstOf(s2.requests, "op") by { Sorting.TextTotal("op", "op"); }
    assert CriticalFiles(s2, {Requested("op")}) == {};
    assert Starts(s2, {Requested("op")}, run);
    var s3 := Next(s2, begin);
    assert "op" in RequestedStems(run, {}) by { assert Requested("op") in run.files; }
    OneMore(s3, succeed, []);
    OneMore(s2, begin, [succeed] + []);
    OneMore(s1, Enqueue(marker), [begin] + ([succeed] + []));
    OneMore(Start(), Create(marker), [Enqueue(marker)] + ([begin] + ([succeed] + [])));
    LostAtEnd(s3);
  }

  lemma LostAtEnd(s: System)
    requires s.run.Some? && s.run.value.markers == map[] && s.run.value.files == {Requested("op")}
    requires "op" in s.queued && "op" !in s.deferred && s.successes == {}
    ensures var after := Next(s, Succeed(None, {}, {}));
            "op" in after.queued && !Waiting(after, "op") && !Replicated(after, "op")
  {
    assert "op" in RequestedStems(s.run.value, {}) by { assert Requested("op") in s.run.value.files; }
  }

  // ---------------------------------------------------------------------------------------------
  // As the scheduler and the service run it

  lemma ReceiptsAt(receipts: map<string, Receipt>, run: Run, state: ResultState, sha: Option<string>)
    ensures var target := WithReceipts(receipts, run, state, sha);
            && (forall id :: id in target <==> id in receipts || id in run.markers)
            && (forall id :: id in receipts && id !in run.markers ==> target[id] == receipts[id])
            && forall id :: id in run.markers ==> target[id] == Receipt(run.markers[id].sequence, state, run.bundleId, sha, run.generation)
  {
  }

  class Queue {
    var requests: Folder
    var deferred: Folder
    var receipts: map<string, Receipt>
    var rows: map<string, Row>
    var run: Option<Run>
    ghost var queued: set<string>
    ghost var jobs: set<string>
    ghost var successes: set<Replication>

    ghost function Current(): System
      reads this
    {
      System(requests, deferred, receipts, rows, run, queued, jobs, successes)
    }

    constructor ()
      ensures Current() == Start()
    {
      requests, deferred, receipts, rows, run := map[], map[], map[], map[], None;
      queued, jobs, successes := {}, {}, {};
    }

    /** Put the request file of a committed operation in place. */
    method QueueOperation(marker: Marker)
      requires Enabled(Current(), Enqueue(marker))
      modifies this
      ensures Current() == Next(old(Current()), Enqueue(marker))
    {
      requests := requests[marker.operationId := Protection(marker)];
      queued := queued + {marker.operationId};
    }

    method WriteReceipts(finished: Run, state: ResultState, sha: Option<string>)
      modifies this`receipts
      ensures receipts == WithReceipts(old(receipts), finished, state, sha)
    {
      hide WithReceipts;
      ReceiptsAt(receipts, finished, state, sha);
      ghost var target := WithReceipts(receipts, finished, state, sha);
      var written, pending := receipts, finished.markers.Keys;
      while pending != {}
        invariant pending <= finished.markers.Keys
        invariant forall id :: id in target <==> id in written || id in pending
        invariant forall id :: id in written && id !in pending ==> written[id] == target[id]
        decreases |pending|
      {
        var id :| id in pending;
        assert id in finished.markers;
        written := written[id := Receipt(finished.markers[id].sequence, state, finished.bundleId, sha, finished.generation)];
        pending := pending - {id};
      }
      assert written == target;
      receipts := written;
    }

    /** Accept the open rows of a batch; the updates in `failing` do not reach the database. */
    method AcceptRows(finished: Run, sha: Option<string>, failing: set<string>)
      modifies this`rows
      ensures rows == WithAccepted(old(rows), finished, sha, failing)
    {
      var pending := finished.markers.Keys * rows.Keys;
      while pending != {}
        invariant pending <= finished.markers.Keys * old(rows.Keys) && rows.Keys == old(rows.Keys)
        invariant forall id :: id in rows ==>
          rows[id] == if id in pending then old(rows)[id] else WithAccepted(old(rows), finished, sha, failing)[id]
        decreases |pending|
      {
        var id :| id in pending;
        var row := rows[id];
        if id !in failing && finished.markers[id].sequence == row.sequence && Open(row.state) {
          rows := rows[id := Row(row.sequence, Accepted, Some(Facts(finished.bundleId, if sha.Some? then sha.value else "", finished.generation)))];
        }
        pending := pending - {id};
      }
    }

    method RemoveFiles(finished: Run, stuck: set<Place>)
      modifies this`requests, this`deferred
      ensures requests == old(requests) - RequestedStems(finished, stuck)
      ensures deferred == old(deferred) - DeferredStems(finished, stuck)
    {
      var pending := finished.files;
      while pending != {}
        invariant pending <= finished.files
        invariant requests == old(requests) - set p | p in finished.files - pending && p.Requested? && p !in stuck :: p.stem
        invariant deferred == old(deferred) - set p | p in finished.files - pending && p.Deferred? && p !in stuck :: p.stem
        decreases |pending|
      {
        var place :| place in pending;
        pending := pending - {place};
        if place !in stuck {
          if place.Requested? {
            requests := requests - {place.stem};
          } else {
            deferred := deferred - {place.stem};
          }
        }
      }
      assert (set p | p in finished.files - {} && p.Requested? && p !in stuck :: p.stem) == RequestedStems(finished, stuck);
      assert (set p | p in finished.files - {} && p.Deferred? && p !in stuck :: p.stem) == DeferredStems(finished, stuck);
    }

    method DeferFiles(finished: Run, stuck: set<Place>)
      modifies this`requests, this`deferred
      ensures requests == old(requests) - RequestedStems(finished, stuck)
      ensures deferred == old(deferred) + map stem | stem in old(requests) && stem in RequestedStems(finished, stuck) :: old(requests)[stem]
    {
      hide RequestedStems;
      var stems := RequestedStems(finished, stuck);
      ghost var first := deferred + map stem | stem in requests && stem in stems :: requests[stem];
      var left, moved, pending := requests, deferred, stems;
      while pending != {}
        invariant pending <= stems
        invariant left == requests - (stems - pending)
        invariant forall stem :: stem in first <==> stem in moved || (stem in pending && stem in requests)
        invariant forall stem :: stem in moved && !(stem in pending && stem in requests) ==> moved[stem] == first[stem]
        decreases |pending|
      {
        var stem :| stem in pending;
        pending := pending - {stem};
        if stem in left {
          moved := moved[stem := left[stem]];
          left := left - {stem};
        }
      }
      assert moved == first;
      requests, deferred := left, moved;
    }

    /** Finish a run whose replication succeeded with a digest, or did not succeed. */
    method FinishRun(succeeded: bool, sha: Option<string>, failing: set<string>, stuck: set<Place>)
      requires run.Some?
      modifies this
      ensures Current() == if succeeded then Succeeded(old(Current()), sha, failing, stuck) else Postponed(old(Current()), stuck)
    {
      hide WithReceipts, WithAccepted, RequestedStems, DeferredStems;
      var finished := run.value;
      if succeeded {
        AcceptRows(finished, sha, failing);
        WriteReceipts(finished, ResultAccepted, sha);
        RemoveFiles(finished, stuck);
        successes := successes + {Replication(Facts(finished.bundleId, if sha.Some? then sha.value else "", finished.generation), finished.markers.Keys)};
      } else {
        WriteReceipts(finished, ResultIndeterminate, None);
        DeferFiles(finished, stuck);
      }
      run := None;
    }

    /** Apply the public receipt of one operation to its row. */
    method SyncOperation(operation: string)
      requires operation in rows
      modifies this`rows
      ensures Current() == Next(old(Current()), Sync(operation))
    {
      var row := rows[operation];
      if !Open(row.state) || operation !in receipts {
        assert rows[operation := row] == rows;
        return;
      }
      var receipt := receipts[operation];
      if receipt.sequence != row.sequence {
        assert rows[operation := row] == rows;
        return;
      }
      match receipt.state {
        case ResultPending => rows := rows[operation := row.(state := Pending)];
        case ResultIndeterminate => rows := rows[operation := row.(state := Indeterminate)];
        case ResultAccepted =>
          if receipt.bundleSha.None? || !HexDigest(receipt.bundleSha.value) || receipt.generation < 1 {
            assert rows[operation := row] == rows;
            return;
          }
          rows := rows[operation := Row(row.sequence, Accepted, Some(Facts(receipt.bundleId, receipt.bundleSha.value, receipt.generation)))];
      }
    }
  }
}
