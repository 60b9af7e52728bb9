/** The loader: storage key, bounded-retry insert, per-file counting and
    classification, the completion rename, and the job fan-out of Run. */
module Loader {
  import opened Base
  import opened UserApps
  import opened Memcache

  const MemcacheMaxRetries: nat := 5
  const NormalErrRate: real := 0.01

  /** The value stored under the key: pb.UserApps carries only the coordinates and the app ids. */
  datatype Payload = Payload(lon: real, lat: real, apps: seq<uint32>)

  /** proto.Marshal, taken as given: the bytes, or the error it returns. */
  type Marshaller = Payload -> Result<seq<byte>, string>

  datatype InsertError =
    | ErrMemcacheConnect
    | ErrMarshal(reason: string)
    | ErrUnknownDevice

  // ---- Storage key ----

  /** The memcache key of a record: "devType:devId". */
  function Key(devType: string, devId: string): (key: string)
    ensures |key| == |devType| + 1 + |devId|
    ensures key[|devType|] == ':'
  {
    devType + ":" + devId
  }

  /** Keys are unique when device types contain no colon (as the routed types
      idfa, gaid, adid and dvid do not). */
  lemma KeyInjective(t1: string, id1: string, t2: string, id2: string)
    requires ':' !in t1 && ':' !in t2
    requires Key(t1, id1) == Key(t2, id2)
    ensures t1 == t2 && id1 == id2
  {
    FirstColon(t1, id1);
    FirstColon(t2, id2);
    assert |t1| == |t2|;
    KeyParts(t1, id1);
    KeyParts(t2, id2);
  }

  /** The device type and the device id sit on either side of the key's colon. */
  lemma KeyParts(devType: string, devId: string)
    ensures Key(devType, devId)[..|devType|] == devType
    ensures Key(devType, devId)[|devType| + 1..] == devId
  {
  }

  /** In the key of a colon-free device type, the first colon ends the type. */
  lemma FirstColon(devType: string, devId: string)
    requires ':' !in devType
    ensures forall j :: 0 <= j < |devType| ==> Key(devType, devId)[j] != ':'
    ensures Key(devType, devId)[|devType|] == ':'
  {
  }

  /** Without that restriction two records can share a key and overwrite each other. */
  lemma KeyCollision()
    ensures Key("a:b", "c") == Key("a", "b:c")
  {
  }

  // ---- Retry policy ----

  datatype RetryOutcome = RetryOutcome(attempts: nat, stored: bool)

  /** The outcome of calling Set up to `budget` times against `script`,
      stopping at the first success. */
  function Retry(script: seq<bool>, budget: nat): (r: RetryOutcome)
    ensures r.attempts <= budget
    ensures r.stored ==> 1 <= r.attempts <= |script| && script[r.attempts - 1]
    ensures r.stored ==> forall j :: 0 <= j < r.attempts - 1 ==> !script[j]
    ensures !r.stored ==> r.attempts == budget
    ensures !r.stored ==> forall j :: 0 <= j < budget && j < |script| ==> !script[j]
    decreases budget
  {
    if budget == 0 then RetryOutcome(0, false)
    else if script != [] && script[0] then RetryOutcome(1, true)
    else
      var r := Retry(Rest(script), budget - 1);
      RetryOutcome(r.attempts + 1, r.stored)
  }

  /** If the k-th call (counting from 1) is the first success within the budget,
      exactly k calls are made and the item is stored. */
  lemma RetryFirstSuccess(script: seq<bool>, budget: nat, k: nat)
    requires 1 <= k <= budget && k <= |script| && script[k - 1]
    requires forall j :: 0 <= j < k - 1 ==> !script[j]
    ensures Retry(script, budget) == RetryOutcome(k, true)
  {
  }

  /** If every call within the budget fails, the whole budget is spent. */
  lemma RetryExhausted(script: seq<bool>, budget: nat)
    requires forall j :: 0 <= j < budget && j < |script| ==> !script[j]
    ensures Retry(script, budget) == RetryOutcome(budget, false)
  {
  }

  /** insert's retry loop: Set `item` on `client` up to MemcacheMaxRetries
      times, stopping at the first success; `stored` tells whether one succeeded. */
  method SetRetrying(client: Client, item: Item) returns (stored: bool)
    modifies client
    ensures var r := Retry(old(client.script), MemcacheMaxRetries);
      && stored == r.stored
      && client.sets == old(client.sets) + Repeat(item, r.attempts)
      && client.script == After(old(client.script), r.attempts)
      && client.items == (if r.stored then old(client.items)[item.key := item.value] else old(client.items))
  {
    ghost var script0 := client.script;
    for i := 0 to MemcacheMaxRetries
      invariant client.script == After(script0, i)
      invariant client.sets == old(client.sets) + Repeat(item, i)
      invariant client.items == old(client.items)
      invariant forall j :: 0 <= j < i && j < |script0| ==> !script0[j]
    {
      var ok := client.Set(item);
      if ok {
        RetryFirstSuccess(script0, MemcacheMaxRetries, i + 1);
        return true;
      }
    }
    RetryExhausted(script0, MemcacheMaxRetries);
    return false;
  }

  // ---- Error-rate classification ----

  /** errors / processed as a float64 would have it, with None for the NaN of 0 / 0. */
  function ErrRate(errors: nat, processed: nat): (rate: Option<real>)
    ensures rate.None? <==> processed == 0
    ensures rate.Some? ==> rate.value * processed as real == errors as real
  {
    if processed == 0 then None else Some(errors as real / processed as real)
  }

  /** "Acceptable error rate": the rate compares below NormalErrRate; NaN compares false. */
  predicate Accepted(processed: nat, errors: nat): (ok: bool)
    ensures ok ==> processed > 0 && errors < processed
  {
    match ErrRate(errors, processed)
    case None => false
    case Some(rate) => rate < NormalErrRate
  }

  /** The classification in integers: errors * 100 < processed, and an
      empty file is rejected. */
  lemma AcceptedIff(processed: nat, errors: nat)
    ensures Accepted(processed, errors) <==> processed > 0 && errors * 100 < processed
  {
  }

  /** The classification computed in integers, as processFile's decision. */
  function Classify(processed: nat, errors: nat): (accepted: bool)
    ensures accepted == Accepted(processed, errors)
  {
    AcceptedIff(processed, errors);
    processed > 0 && errors * 100 < processed
  }

  /** The threshold's worked cases: 0 of 100 accepted, 2 of 100 rejected, 1 of 100 rejected, an empty file rejected. */
  lemma ClassifyExamples()
    ensures Accepted(100, 0) && !Accepted(100, 2) && !Accepted(100, 1) && !Accepted(0, 0)
  {
  }

  /** The number of lines marked as failed. */
  function Count(failed: seq<bool>): (n: nat)
    ensures n <= |failed|
  {
    if failed == [] then 0
    else Count(failed[..|failed| - 1]) + (if failed[|failed| - 1] then 1 else 0)
  }

  // ---- Completion rename ----

  /** filepath.Split: everything up to and including the last '/', and the rest. */
  function SplitPath(path: string): (r: (string, string))
    ensures r.0 + r.1 == path
    ensures '/' !in r.1
    ensures r.0 == [] || r.0[|r.0| - 1] == '/'
    decreases |path|
  {
    if path == [] then ([], [])
    else if path[|path| - 1] == '/' then (path, [])
    else
      var (dir, file) := SplitPath(path[..|path| - 1]);
      (dir, file + [path[|path| - 1]])
  }

  /** The split is the only one with those three properties. */
  lemma {:induction false} SplitPathUnique(dir: string, file: string)
    requires '/' !in file
    requires dir == [] || dir[|dir| - 1] == '/'
    ensures SplitPath(dir + file) == (dir, file)
    decreases |file|
  {
    var path := dir + file;
    if file == [] {
      assert path == dir;
    } else {
      assert path[..|path| - 1] == dir + file[..|file| - 1];
      SplitPathUnique(dir, file[..|file| - 1]);
      assert file == file[..|file| - 1] + [file[|file| - 1]];
    }
  }

  /** The name a processed file is renamed to: same directory, base name
      with one leading dot. filepath.Join is concatenation here. */
  function DotName(path: string): (r: string)
    ensures SplitPath(r).0 == SplitPath(path).0
    ensures SplitPath(r).1 == "." + SplitPath(path).1
  {
    var (head, fn) := SplitPath(path);
    SplitPathUnique(head, "." + fn);
    head + ("." + fn)
  }

  /** Distinct files get distinct marker names. */
  lemma DotNameInjective(p: string, q: string)
    requires DotName(p) == DotName(q)
    ensures p == q
  {
    assert SplitPath(p).1 == ("." + SplitPath(p).1)[1..];
    assert SplitPath(q).1 == ("." + SplitPath(q).1)[1..];
  }

  // ---- Jobs ----

  datatype Job = Job(file: string, index: nat)

  /** An order in which the n workers may report completion: each job index exactly once. */
  predicate IsCompletionOrder(order: seq<nat>, n: nat)
  {
    && |order| == n
    && (forall k :: 0 <= k < n ==> order[k] < n)
    && (forall k, l :: 0 <= k < l < n ==> order[k] != order[l])
  }

  function Indices(order: seq<nat>): set<nat>
  {
    set k | 0 <= k < |order| :: order[k]
  }

  lemma {:induction false} IndicesSize(order: seq<nat>)
    requires forall k, l :: 0 <= k < l < |order| ==> order[k] != order[l]
    ensures |Indices(order)| == |order|
    decreases |order|
  {
    if order != [] {
      var init := order[..|order| - 1];
      IndicesSize(init);
      assert Indices(order) == Indices(init) + {order[|order| - 1]};
      assert order[|order| - 1] !in Indices(init);
    }
  }

  /** The job indices 0 .. n - 1. */
  function Below(n: nat): (s: set<nat>)
    ensures forall i: int :: i in s <==> 0 <= i < n
    ensures |s| == n
  {
    if n == 0 then {}
    else
      var s := Below(n - 1);
      assert n - 1 !in s;
      s + {n - 1}
  }

  lemma {:induction false} SubsetSize(a: set<nat>, b: set<nat>)
    requires a <= b
    ensures |a| <= |b|
    decreases |b|
  {
    if a != {} {
      var x :| x in a;
      SubsetSize(a - {x}, b - {x});
    }
  }

  /** Whatever the completion order, every job is reported, so every file is renamed. */
  lemma EveryJobCompletes(order: seq<nat>, n: nat, i: nat)
    requires IsCompletionOrder(order, n) && i < n
    ensures exists k :: 0 <= k < n && order[k] == i
  {
    IndicesSize(order);
    if i !in Indices(order) {
      var others := Below(n) - {i};
      assert Below(n) == others + {i};
      assert Indices(order) <= others;
      SubsetSize(Indices(order), others);
    }
  }

  // ---- The loader ----

  class Parser {
    const clients: map<string, Client>
    const numJobs: nat
    const dry: bool

    constructor New(numJobs: nat, clients: map<string, Client>, dry: bool)
      ensures this.numJobs == numJobs && this.clients == clients && this.dry == dry
    {
      this.numJobs := numJobs;
      this.clients := clients;
      this.dry := dry;
    }

    /** The clients' scripts, by client: the part of the clients' state that
        decides the outcome of every later Set call. */
    function Scripts(): (scripts: map<Client, seq<bool>>)
      reads clients.Values
      ensures scripts.Keys == clients.Values
    {
      map c | c in clients.Values :: c.script
    }

    /** The client whose retry loop a line reaches: it parses, the run is not
        dry, the payload marshals and the device type has a client. */
    function Route(line: string, parseFloat: FloatParser, marshal: Marshaller): (c: Option<Client>)
      ensures c.Some? ==> c.value in clients.Values
    {
      match ParseLine(line, parseFloat)
      case Failure(_) => None
      case Success(u) =>
        if dry || marshal(Payload(u.lon, u.lat, u.apps)).Failure? || u.devType !in clients then None
        else Some(clients[u.devType])
    }

    /** Whether processFile counts `line` as an error when the clients'
        scripts are `scripts`: it does not parse, or, outside dry mode, its
        payload does not marshal, its device type has no client, or all
        MemcacheMaxRetries Set calls fail. */
    predicate LineError(line: string, parseFloat: FloatParser, marshal: Marshaller, scripts: map<Client, seq<bool>>)
      requires clients.Values <= scripts.Keys
    {
      match ParseLine(line, parseFloat)
      case Failure(_) => true
      case Success(u) =>
        !dry && (marshal(Payload(u.lon, u.lat, u.apps)).Failure? || u.devType !in clients
                 || !Retry(scripts[clients[u.devType]], MemcacheMaxRetries).stored)
    }

    /** The scripts after `line` is processed: the routed client has consumed
        one outcome per Set call of its retry loop, and no other script moved. */
    function Step(line: string, parseFloat: FloatParser, marshal: Marshaller, scripts: map<Client, seq<bool>>)
      : (after: map<Client, seq<bool>>)
      requires clients.Values <= scripts.Keys
      ensures after.Keys == scripts.Keys
    {
      match Route(line, parseFloat, marshal)
      case None => scripts
      case Some(c) => scripts[c := After(scripts[c], Retry(scripts[c], MemcacheMaxRetries).attempts)]
    }

    /** The scripts after the lines are processed in order. */
    function Replay(lines: seq<string>, parseFloat: FloatParser, marshal: Marshaller, scripts: map<Client, seq<bool>>)
      : (after: map<Client, seq<bool>>)
      requires clients.Values <= scripts.Keys
      ensures after.Keys == scripts.Keys
      decreases |lines|
    {
      if lines == [] then scripts
      else Step(lines[|lines| - 1], parseFloat, marshal, Replay(lines[..|lines| - 1], parseFloat, marshal, scripts))
    }

    /** `failed` marks each of the first |failed| lines exactly as `LineError`
        decides it on the scripts the lines before it leave from `scripts`. */
    predicate CountedAs(lines: seq<string>, failed: seq<bool>, parseFloat: FloatParser, marshal: Marshaller,
                        scripts: map<Client, seq<bool>>)
      requires |failed| <= |lines| && clients.Values <= scripts.Keys
    {
      forall i :: 0 <= i < |failed| ==>
        failed[i] == LineError(lines[i], parseFloat, marshal, Replay(lines[..i], parseFloat, marshal, scripts))
    }

    /** One more line marked as `LineError` decides it on the scripts so far. */
    lemma CountedAsSnoc(lines: seq<string>, failed: seq<bool>, parseFloat: FloatParser, marshal: Marshaller,
                        scripts: map<Client, seq<bool>>, lineFailed: bool)
      requires |failed| < |lines| && clients.Values <= scripts.Keys
      requires CountedAs(lines, failed, parseFloat, marshal, scripts)
      requires lineFailed == LineError(lines[|failed|], parseFloat, marshal, Replay(lines[..|failed|], parseFloat, marshal, scripts))
      ensures CountedAs(lines, failed + [lineFailed], parseFloat, marshal, scripts)
    {
    }

    /** In dry mode no line reaches a client, so the scripts never move. */
    lemma {:induction false} DryReplay(lines: seq<string>, parseFloat: FloatParser, marshal: Marshaller,
                                       scripts: map<Client, seq<bool>>)
      requires dry && clients.Values <= scripts.Keys
      ensures Replay(lines, parseFloat, marshal, scripts) == scripts
      decreases |lines|
    {
      if lines != [] {
        DryReplay(lines[..|lines| - 1], parseFloat, marshal, scripts);
      }
    }

    /** In dry mode exactly the lines that do not parse are errors. */
    lemma DryErrors(line: string, parseFloat: FloatParser, marshal: Marshaller, scripts: map<Client, seq<bool>>)
      requires dry && clients.Values <= scripts.Keys
      ensures LineError(line, parseFloat, marshal, scripts) <==> ParseLine(line, parseFloat).Failure?
    {
    }

    /** So in dry mode a file's error marks are exactly its unparseable lines. */
    lemma DryCounted(lines: seq<string>, failed: seq<bool>, parseFloat: FloatParser, marshal: Marshaller,
                     scripts: map<Client, seq<bool>>)
      requires dry && |failed| <= |lines| && clients.Values <= scripts.Keys
      requires CountedAs(lines, failed, parseFloat, marshal, scripts)
      ensures forall i :: 0 <= i < |failed| ==> (failed[i] <==> ParseLine(lines[i], parseFloat).Failure?)
    {
      forall i | 0 <= i < |failed|
        ensures failed[i] <==> ParseLine(lines[i], parseFloat).Failure?
      {
        DryReplay(lines[..i], parseFloat, marshal, scripts);
        DryErrors(lines[i], parseFloat, marshal, scripts);
      }
    }

    /** A line the retry loop stores is not an error; a parsed line whose
        payload does not marshal, or whose device type has no client, is one
        in every non-dry run. */
    lemma InsertErrors(line: string, parseFloat: FloatParser, marshal: Marshaller, scripts: map<Client, seq<bool>>)
      requires !dry && clients.Values <= scripts.Keys && ParseLine(line, parseFloat).Success?
      ensures var u := ParseLine(line, parseFloat).value;
        marshal(Payload(u.lon, u.lat, u.apps)).Failure? || u.devType !in clients ==> LineError(line, parseFloat, marshal, scripts)
      ensures var c := Route(line, parseFloat, marshal);
        c.Some? ==> (LineError(line, parseFloat, marshal, scripts) <==> !Retry(scripts[c.value], MemcacheMaxRetries).stored)
    {
    }

    /** What insert does to the clients and returns, between the state
        before the call and the state after it. Dry mode returns nil and
        touches nothing; a marshalling error is returned as is; an unknown
        device type is an error; otherwise the routed client receives
        Retry(script, 5).attempts Set calls of the item, the other clients
        are untouched, and the result is nil iff one call succeeded. */
    twostate predicate Inserted(u: UserApps, marshal: Marshaller, new err: Option<InsertError>)
      reads clients.Values
    {
      var message := marshal(Payload(u.lon, u.lat, u.apps));
      if dry then err == None && unchanged(clients.Values)
      else if message.Failure? then err == Some(ErrMarshal(message.error)) && unchanged(clients.Values)
      else if u.devType !in clients then err == Some(ErrUnknownDevice) && unchanged(clients.Values)
      else
        var c := clients[u.devType];
        var item := Item(Key(u.devType, u.devId), message.value);
        var r := Retry(old(c.script), MemcacheMaxRetries);
        && err == (if r.stored then None else Some(ErrMemcacheConnect))
        && c.sets == old(c.sets) + Repeat(item, r.attempts)
        && c.script == After(old(c.script), r.attempts)
        && c.items == (if r.stored then old(c.items)[item.key := item.value] else old(c.items))
        && forall d :: d in clients.Values && d != c ==> unchanged(d)
    }

    /** insert: store the record's payload under its key, retrying Set up to
        MemcacheMaxRetries times. */
    method Insert(u: UserApps, marshal: Marshaller) returns (err: Option<InsertError>)
      modifies clients.Values
      ensures Inserted(u, marshal, err)
    {
      var payload := Payload(u.lon, u.lat, u.apps);
      var key := Key(u.devType, u.devId);
      if dry {
        return None;
      }
      var message := marshal(payload);
      if message.Failure? {
        return Some(ErrMarshal(message.error));
      }
      if u.devType !in clients {
        return Some(ErrUnknownDevice);
      }
      var stored := SetRetrying(clients[u.devType], Item(key, message.value));
      return if stored then None else Some(ErrMemcacheConnect);
    }

    /** The body of processFile's scan loop for one line: parse it and, when
        that succeeds, insert the record. The line counts as an error iff it
        does not parse or its insert returns an error (`insertErr`). */
    method ProcessLine(line: string, parseFloat: FloatParser, marshal: Marshaller)
      returns (failed: bool, ghost insertErr: Option<InsertError>)
      modifies clients.Values
      ensures failed <==> ParseLine(line, parseFloat).Failure? || insertErr.Some?
      ensures ParseLine(line, parseFloat).Failure? ==> insertErr == None && unchanged(clients.Values)
      ensures ParseLine(line, parseFloat).Success? ==> Inserted(ParseLine(line, parseFloat).value, marshal, insertErr)
      ensures failed == LineError(line, parseFloat, marshal, old(Scripts()))
      ensures Scripts() == Step(line, parseFloat, marshal, old(Scripts()))
    {
      var u, err := Parse(line, parseFloat);
      if err.Some? {
        return true, None;
      }
      var e := Insert(u, marshal);
      failed, insertErr := e.Some?, e;
      ghost var after := Step(line, parseFloat, marshal, old(Scripts()));
      forall c | c in clients.Values
        ensures c.script == after[c]
      {
      }
    }

    /** processFile's scan loop over the lines of one file: count every line,
        count a line as an error when it does not parse or its insert fails,
        then classify the file. `failed` records which lines were counted: a
        line is an error exactly as `LineError` decides it on the clients'
        scripts left by the lines before it. */
    method ProcessFile(lines: seq<string>, parseFloat: FloatParser, marshal: Marshaller)
      returns (processed: nat, errors: nat, accepted: bool, ghost failed: seq<bool>)
      modifies clients.Values
      ensures processed == |lines| && |failed| == |lines|
      ensures errors == Count(failed) && errors <= processed
      ensures accepted == Accepted(processed, errors)
      ensures CountedAs(lines, failed, parseFloat, marshal, old(Scripts()))
      ensures Scripts() == Replay(lines, parseFloat, marshal, old(Scripts()))
      ensures dry ==> unchanged(clients.Values)
    {
      processed, errors, failed := 0, 0, [];
      for n := 0 to |lines|
        invariant processed == n && |failed| == n
        invariant errors == Count(failed) && errors <= processed
        invariant CountedAs(lines, failed, parseFloat, marshal, old(Scripts()))
        invariant Scripts() == Replay(lines[..n], parseFloat, marshal, old(Scripts()))
        invariant dry ==> unchanged(clients.Values)
      {
        processed := processed + 1;
        var lineFailed;
        ghost var insertErr;
        lineFailed, insertErr := ProcessLine(lines[n], parseFloat, marshal);
        if lineFailed {
          errors := errors + 1;
        }
        CountedAsSnoc(lines, failed, parseFloat, marshal, old(Scripts()), lineFailed);
        assert lines[..n + 1][..n] == lines[..n];
        assert (failed + [lineFailed])[..n] == failed;
        failed := failed + [lineFailed];
      }
      assert lines[..|lines|] == lines;
      accepted := Classify(processed, errors);
    }

    /** The scripts after the files `paths` are processed, one whole file
        after another, in the order given. */
    function ReplayFiles(paths: seq<string>, contents: string -> seq<string>,
                         parseFloat: FloatParser, marshal: Marshaller, scripts: map<Client, seq<bool>>)
      : (after: map<Client, seq<bool>>)
      requires clients.Values <= scripts.Keys
      ensures after.Keys == scripts.Keys
      decreases |paths|
    {
      if paths == [] then scripts
      else
        var before := ReplayFiles(paths[..|paths| - 1], contents, parseFloat, marshal, scripts);
        Replay(contents(paths[|paths| - 1]), parseFloat, marshal, before)
    }

    /** One more file replays its lines on the scripts the files before it left. */
    lemma ReplayFilesSnoc(paths: seq<string>, path: string, contents: string -> seq<string>,
                          parseFloat: FloatParser, marshal: Marshaller, scripts: map<Client, seq<bool>>)
      requires clients.Values <= scripts.Keys
      ensures ReplayFiles(paths + [path], contents, parseFloat, marshal, scripts)
        == Replay(contents(path), parseFloat, marshal, ReplayFiles(paths, contents, parseFloat, marshal, scripts))
    {
      assert (paths + [path])[..|paths|] == paths;
    }

    /** In dry mode a whole run leaves every script as it was. */
    lemma {:induction false} DryReplayFiles(paths: seq<string>, contents: string -> seq<string>,
                                            parseFloat: FloatParser, marshal: Marshaller, scripts: map<Client, seq<bool>>)
      requires dry && clients.Values <= scripts.Keys
      ensures ReplayFiles(paths, contents, parseFloat, marshal, scripts) == scripts
      decreases |paths|
    {
      if paths != [] {
        DryReplayFiles(paths[..|paths| - 1], contents, parseFloat, marshal, scripts);
        DryReplay(contents(paths[|paths| - 1]), parseFloat, marshal, scripts);
      }
    }

    /** Run's first loop: send Job{files[i], i} on the jobs channel for every
        i below numJobs, in index order. */
    method QueueJobs(files: seq<string>) returns (jobs: seq<Job>)
      requires numJobs <= |files|
      ensures |jobs| == numJobs && forall i :: 0 <= i < numJobs ==> jobs[i] == Job(files[i], i)
    {
      jobs := [];
      for i := 0 to numJobs
        invariant |jobs| == i && forall j :: 0 <= j < i ==> jobs[j] == Job(files[j], j)
      {
        jobs := jobs + [Job(files[i], i)];
      }
    }

    /** One job taken by worker: process the job's file, then report that
        file on the results channel. */
    method Worker(job: Job, contents: string -> seq<string>, parseFloat: FloatParser, marshal: Marshaller)
      returns (reported: string, ghost processed: nat)
      modifies clients.Values
      ensures reported == job.file && processed == |contents(job.file)|
      ensures Scripts() == Replay(contents(job.file), parseFloat, marshal, old(Scripts()))
      ensures dry ==> unchanged(clients.Values)
    {
      var errors, accepted;
      ghost var failed;
      processed, errors, accepted, failed := ProcessFile(contents(job.file), parseFloat, marshal);
      reported := job.file;
    }

    /** Run, with its goroutines sequentialised: queue Job{files[i], i} for
        every i below numJobs, let the jobs complete in `order` (the order the
        workers happen to report them), process each completed file and rename
        it to its dot name. The contents of each file are given by `contents`. */
    method Run(files: seq<string>, order: seq<nat>, contents: string -> seq<string>,
               parseFloat: FloatParser, marshal: Marshaller)
      returns (jobs: seq<Job>, renamed: seq<(string, string)>, ghost processed: seq<string>, ghost counts: seq<nat>)
      requires numJobs <= |files|
      requires IsCompletionOrder(order, numJobs)
      modifies clients.Values
      ensures |jobs| == numJobs && forall i :: 0 <= i < numJobs ==> jobs[i] == Job(files[i], i)
      ensures |renamed| == numJobs
      ensures forall k :: 0 <= k < numJobs ==> renamed[k] == (files[order[k]], DotName(files[order[k]]))
      ensures |counts| == numJobs
      ensures forall k :: 0 <= k < numJobs ==> counts[k] == |contents(files[order[k]])|
      ensures |processed| == numJobs && forall k :: 0 <= k < numJobs ==> processed[k] == files[order[k]]
      ensures Scripts() == ReplayFiles(processed, contents, parseFloat, marshal, old(Scripts()))
      ensures dry ==> unchanged(clients.Values)
    {
      jobs := QueueJobs(files);
      renamed, processed, counts := [], [], [];
      ghost var scripts0 := Scripts();
      for k := 0 to numJobs
        invariant |renamed| == k && |processed| == k && |counts| == k
        invariant forall l :: 0 <= l < k ==> processed[l] == files[order[l]]
        invariant forall l :: 0 <= l < k ==> counts[l] == |contents(files[order[l]])|
        invariant forall l :: 0 <= l < k ==> renamed[l] == (files[order[l]], DotName(files[order[l]]))
        invariant Scripts() == ReplayFiles(processed, contents, parseFloat, marshal, scripts0)
        invariant dry ==> unchanged(clients.Values)
      {
        var file;
        ghost var lines;
        file, lines := Worker(jobs[order[k]], contents, parseFloat, marshal);
        renamed := renamed + [(file, DotName(file))];
        ReplayFilesSnoc(processed, file, contents, parseFloat, marshal, scripts0);
        processed, counts := processed + [file], counts + [lines];
      }
    }
  }
}
