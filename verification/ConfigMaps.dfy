/** The text of a job's ConfigMap: the hostfile and discover_hosts.sh
    (newConfigMap and updateDiscoverHostsInConfigMap in pkg/controller/mpi_job_controller.go). */
module ConfigMaps {
  import opened Types
  import opened Names
  import opened Listings
  import opened Validation

  const HOSTFILE_NAME := "hostfile"
  const DISCOVER_HOSTS_NAME := "discover_hosts.sh"
  const SCRIPT_HEADER := "#!/bin/sh"

  /* ---- Writing ---- */

  function Unlines(lines: seq<string>): string {
    if lines == [] then "" else lines[0] + "\n" + Unlines(lines[1..])
  }

  function Domain(key: Key): string { key.name + "." + key.namespace + ".svc" }

  function Address(host: string, key: Key): string { host + "." + Domain(key) }

  function Separator(mpi: MpiImplementation): char { if mpi == OpenMPI then ' ' else ':' }
  function SlotsPrefix(mpi: MpiImplementation): string { if mpi == OpenMPI then "slots=" else "" }

  function HostLine(host: string, key: Key, slots: int, mpi: MpiImplementation): string {
    Address(host, key) + [Separator(mpi)] + (SlotsPrefix(mpi) + FormatInt(slots))
  }

  function Slots(spec: GroupJobSpec): int { spec.slotsPerWorker.GetOr(1) }

  /** The hosts of a job in hostfile order. */
  function Hosts(key: Key, spec: GroupJobSpec): seq<string> {
    (if spec.RunsLauncherAsWorker() then [LauncherName(key.name)] else []) + WorkerHosts(key, spec.WorkerReplicas())
  }

  function WorkerHosts(key: Key, n: int): seq<string> {
    seq(if n < 0 then 0 else n, i requires 0 <= i => WorkerName(key.name, i))
  }

  function HostLines(hosts: seq<string>, key: Key, slots: int, mpi: MpiImplementation): seq<string> {
    seq(|hosts|, i requires 0 <= i < |hosts| => HostLine(hosts[i], key, slots, mpi))
  }

  function Hostfile(key: Key, spec: GroupJobSpec): string {
    if spec.mpiImplementation in {OpenMPI, Intel, MPICH}
    then Unlines(HostLines(Hosts(key, spec), key, Slots(spec), spec.mpiImplementation)) else ""
  }

  function EchoLine(host: string, key: Key): string { "echo " + Address(host, key) }

  /** The hosts the script prints when the lister returned the running pods' names as `running`. */
  function ScriptHosts(key: Key, spec: GroupJobSpec, running: seq<string>): seq<string> {
    (if spec.RunsLauncherAsWorker() then [LauncherName(key.name)] else []) + SortNames(running)
  }

  function EchoLines(hosts: seq<string>, key: Key): seq<string> {
    seq(|hosts|, i requires 0 <= i < |hosts| => EchoLine(hosts[i], key))
  }

  function DiscoverHosts(key: Key, spec: GroupJobSpec, running: seq<string>): string {
    Unlines([SCRIPT_HEADER] + EchoLines(ScriptHosts(key, spec, running), key))
  }

  function ConfigData(key: Key, spec: GroupJobSpec, running: seq<string>): map<string, string> {
    map[HOSTFILE_NAME := Hostfile(key, spec), DISCOVER_HOSTS_NAME := DiscoverHosts(key, spec, running)]
  }

  lemma UnlinesStep(buffer: string, lines: seq<string>, i: nat)
    requires i < |lines|
    ensures buffer + Unlines(lines[i..]) == buffer + (lines[i] + "\n") + Unlines(lines[i + 1..])
  {
    assert lines[i..][1..] == lines[i + 1..];
    assert buffer + (lines[i] + "\n" + Unlines(lines[i + 1..])) == buffer + (lines[i] + "\n") + Unlines(lines[i + 1..]);
  }

  method WriteHostLine(buffer: string, host: string, key: Key, slots: int, mpi: MpiImplementation) returns (r: string)
    ensures r == if mpi in {OpenMPI, Intel, MPICH} then buffer + (HostLine(host, key, slots, mpi) + "\n") else buffer
  {
    var address, digits := Address(host, key), FormatInt(slots);
    match mpi {
      case OpenMPI =>
        assert " slots=" == [' '] + "slots=";
        assert address + " slots=" + digits == address + [' '] + ("slots=" + digits);
        r := buffer + (address + " slots=" + digits + "\n");
      case Intel =>
        assert address + ":" + digits == address + [':'] + ("" + digits);
        r := buffer + (address + ":" + digits + "\n");
      case MPICH =>
        assert address + ":" + digits == address + [':'] + ("" + digits);
        r := buffer + (address + ":" + digits + "\n");
      case _ =>
        r := buffer;
    }
  }

  lemma {:induction false} UnlinesConcat(a: seq<string>, b: seq<string>)
    ensures Unlines(a + b) == Unlines(a) + Unlines(b)
  {
    if a == [] {
      assert a + b == b;
    } else {
      assert (a + b)[1..] == a[1..] + b;
      UnlinesConcat(a[1..], b);
    }
  }

  lemma HostLinesCons(host: string, hosts: seq<string>, key: Key, slots: int, mpi: MpiImplementation)
    ensures Unlines(HostLines([host] + hosts, key, slots, mpi)) ==
            HostLine(host, key, slots, mpi) + "\n" + Unlines(HostLines(hosts, key, slots, mpi))
  {
    var lines := HostLines([host] + hosts, key, slots, mpi);
    assert lines[1..] == HostLines(hosts, key, slots, mpi);
  }

  method WriteHostfile(key: Key, spec: GroupJobSpec) returns (buffer: string)
    ensures buffer == Hostfile(key, spec)
  {
    hide Unlines, HostLines, HostLine, WorkerHosts, LauncherName;
    buffer := "";
    var slots := spec.slotsPerWorker.GetOr(1);
    var mpi := spec.mpiImplementation;
    ghost var workers := WorkerHosts(key, spec.WorkerReplicas());
    if spec.RunsLauncherAsWorker() {
      HostLinesCons(LauncherName(key.name), workers, key, slots, mpi);
      buffer := WriteHostLine(buffer, LauncherName(key.name), key, slots, mpi);
      assert "" + (HostLine(LauncherName(key.name), key, slots, mpi) + "\n") ==
             HostLine(LauncherName(key.name), key, slots, mpi) + "\n";
    } else {
      assert Hosts(key, spec) == [] + workers == workers;
      assert "" + Unlines(HostLines(workers, key, slots, mpi)) == Unlines(HostLines(workers, key, slots, mpi));
    }
    buffer := WriteWorkerLines(buffer, key, spec.WorkerReplicas(), slots, mpi);
  }

  method WriteWorkerLines(buffer: string, key: Key, n: int, slots: int, mpi: MpiImplementation) returns (r: string)
    ensures r == if mpi in {OpenMPI, Intel, MPICH}
                 then buffer + Unlines(HostLines(WorkerHosts(key, n), key, slots, mpi)) else buffer
  {
    r := buffer;
    ghost var lines := HostLines(WorkerHosts(key, n), key, slots, mpi);
    var i := 0;
    while i < n
      invariant 0 <= i <= |lines|
      invariant mpi in {OpenMPI, Intel, MPICH} ==> r + Unlines(lines[i..]) == buffer + Unlines(lines)
      invariant mpi !in {OpenMPI, Intel, MPICH} ==> r == buffer
    {
      UnlinesStep(r, lines, i);
      r := WriteHostLine(r, WorkerName(key.name, i), key, slots, mpi);
      i := i + 1;
    }
  }

  lemma HeaderLines(first: seq<string>, hosts: seq<string>, key: Key)
    ensures [SCRIPT_HEADER] + EchoLines(first + hosts, key) ==
            [SCRIPT_HEADER] + EchoLines(first, key) + EchoLines(hosts, key)
  {
    hide EchoLine;
  }

  lemma HeaderText(first: seq<string>, key: Key)
    requires |first| <= 1
    ensures Unlines([SCRIPT_HEADER] + EchoLines(first, key)) ==
            SCRIPT_HEADER + "\n" + if first == [] then "" else EchoLine(first[0], key) + "\n"
  {
    hide EchoLine;
    var header := [SCRIPT_HEADER] + EchoLines(first, key);
    assert header[1..] == EchoLines(first, key);
    if first != [] {
      assert header[1..][1..] == [];
      assert Unlines(header[1..]) == EchoLine(first[0], key) + "\n" + "";
    }
  }

  lemma DiscoverHostsParts(key: Key, spec: GroupJobSpec, running: seq<string>)
    ensures DiscoverHosts(key, spec, running) ==
            SCRIPT_HEADER + "\n"
            + (if spec.RunsLauncherAsWorker() then EchoLine(LauncherName(key.name), key) + "\n" else "")
            + Unlines(EchoLines(SortNames(running), key))
  {
    hide Unlines, EchoLines, EchoLine, LauncherName;
    var first := if spec.RunsLauncherAsWorker() then [LauncherName(key.name)] else [];
    var sorted := SortNames(running);
    HeaderLines(first, sorted, key);
    UnlinesConcat([SCRIPT_HEADER] + EchoLines(first, key), EchoLines(sorted, key));
    HeaderText(first, key);
  }

  /** However the library sorts, the script is the one that DiscoverHosts gives. */
  method WriteDiscoverHosts(key: Key, spec: GroupJobSpec, running: seq<string>) returns (buffer: string)
    ensures buffer == DiscoverHosts(key, spec, running)
  {
    hide DiscoverHosts, EchoLines, EchoLine, LauncherName, Sorted;
    var sorted := Sort(running);
    SortedUnique(sorted, SortNames(running));
    DiscoverHostsParts(key, spec, running);
    buffer := SCRIPT_HEADER + "\n";
    if spec.RunsLauncherAsWorker() {
      buffer := buffer + (EchoLine(LauncherName(key.name), key) + "\n");
    }
    buffer := WriteEchoLines(buffer, sorted, key);
  }

  method WriteEchoLines(buffer: string, hosts: seq<string>, key: Key) returns (r: string)
    ensures r == buffer + Unlines(EchoLines(hosts, key))
  {
    r := buffer;
    ghost var lines := EchoLines(hosts, key);
    for i := 0 to |hosts|
      invariant r + Unlines(lines[i..]) == buffer + Unlines(lines)
    {
      UnlinesStep(r, lines, i);
      r := r + (EchoLine(hosts[i], key) + "\n");
    }
  }

  /* ---- Reading back ---- */

  function IndexOf(s: string, c: char): (k: nat)
    ensures k <= |s|
    ensures k < |s| ==> s[k] == c
    ensures c !in s[..k]
  {
    if s == [] || s[0] == c then 0
    else
      var k := IndexOf(s[1..], c) + 1;
      assert s[..k] == [s[0]] + s[1..][..k - 1];
      k
  }

  lemma {:induction false} IndexOfFirst(a: string, c: char, b: string)
    requires c !in a
    ensures IndexOf(a + [c] + b, c) == |a|
  {
    if a != [] {
      assert (a + [c] + b)[1..] == a[1..] + [c] + b;
      IndexOfFirst(a[1..], c, b);
    }
  }

  function Lines(text: string): seq<string> {
    var k := IndexOf(text, '\n');
    if k == |text| then (if text == "" then [] else [text]) else [text[..k]] + Lines(text[k + 1..])
  }

  lemma LinesCons(line: string, rest: string)
    requires '\n' !in line
    ensures Lines(line + "\n" + rest) == [line] + Lines(rest)
  {
    IndexOfFirst(line, '\n', rest);
    assert (line + "\n" + rest)[..|line|] == line;
    assert (line + "\n" + rest)[|line| + 1..] == rest;
  }

  lemma {:induction false} LinesOfUnlines(lines: seq<string>)
    requires forall l :: l in lines ==> '\n' !in l
    ensures Lines(Unlines(lines)) == lines
  {
    if lines != [] {
      LinesOfUnlines(lines[1..]);
      LinesCons(lines[0], Unlines(lines[1..]));
    }
  }

  /* The readers below have the formats written out; they share nothing with the writers. */

  datatype HostEntry = HostEntry(host: string, job: string, domain: string, slots: int)

  /** Splits host.job.domain at the first two dots. */
  function SplitAddress(address: string): Option<(string, string, string)> {
    var j := IndexOf(address, '.');
    if j == |address| then None
    else
      var rest := address[j + 1..];
      var k := IndexOf(rest, '.');
      if k == |rest| then None else Some((address[..j], rest[..k], rest[k + 1..]))
  }

  /** One hostfile line as Open MPI reads it, `host slots=n`, or as Intel MPI and MPICH do, `host:n`. */
  function ReadHostLine(line: string, mpi: MpiImplementation): Option<HostEntry> {
    if mpi == OpenMPI then ReadEntry(line, " slots=") else ReadEntry(line, ":")
  }

  function ReadEntry(line: string, keyword: string): Option<HostEntry>
    requires keyword != ""
  {
    var k := IndexOf(line, keyword[0]);
    if !(keyword <= line[k..]) then None
    else
      var parts, slots := SplitAddress(line[..k]), Atoi(line[k + |keyword|..]);
      if parts.None? || slots.None? then None
      else Some(HostEntry(parts.value.0, parts.value.1, parts.value.2, slots.value))
  }

  function ReadHostfile(text: string, mpi: MpiImplementation): seq<Option<HostEntry>> {
    var lines := Lines(text);
    seq(|lines|, i requires 0 <= i < |lines| => ReadHostLine(lines[i], mpi))
  }

  function LastIndexOf(s: string, c: char): (k: int)
    ensures -1 <= k < |s|
    ensures k >= 0 ==> s[k] == c
  {
    if s == [] then -1 else if s[|s| - 1] == c then |s| - 1 else LastIndexOf(s[..|s| - 1], c)
  }

  datatype ScriptEntry = ScriptEntry(host: string, job: string, namespace: string, suffix: string)

  /** Splits host.job.namespace.suffix at the last three dots: a pod's name may have dots of its own. */
  function SplitFromEnd(address: string): Option<ScriptEntry> {
    var l := LastIndexOf(address, '.');
    if l == -1 then None
    else
      var k := LastIndexOf(address[..l], '.');
      if k == -1 then None
      else
        var j := LastIndexOf(address[..k], '.');
        if j == -1 then None
        else Some(ScriptEntry(address[..j], address[j + 1..k], address[k + 1..l], address[l + 1..]))
  }

  function ReadEchoLine(line: string): Option<ScriptEntry> {
    if "echo " <= line then SplitFromEnd(line[5..]) else None
  }

  /** The addresses a shell script of echo lines prints. */
  function ReadScript(text: string): seq<Option<ScriptEntry>> {
    var lines := Lines(text);
    if lines == [] || lines[0] != "#!/bin/sh" then []
    else seq(|lines| - 1, i requires 0 <= i < |lines| - 1 => ReadEchoLine(lines[i + 1]))
  }

  predicate Plain(s: string) { forall c :: c in s ==> IsLabelChar(c) }

  /** Is it made of what a pod's name may have in it: label characters and dots? */
  predicate Dotted(s: string) { forall c :: c in s ==> IsLabelChar(c) || c == '.' }

  lemma AddressChars(host: string, key: Key)
    requires Plain(host) && Plain(key.name) && Plain(key.namespace)
    ensures ' ' !in Address(host, key) && ':' !in Address(host, key) && '\n' !in Address(host, key)
  {
    assert forall c :: c in host ==> IsLabelChar(c) || c == '.';
    AddressDotted(host, key);
  }

  lemma AddressSplits(host: string, key: Key)
    requires Plain(host) && Plain(key.name)
    ensures SplitAddress(Address(host, key)) == Some((host, key.name, key.namespace + ".svc"))
  {
    var address, domain := Address(host, key), key.namespace + ".svc";
    var rest := key.name + ['.'] + domain;
    assert address == host + ['.'] + rest;
    assert '.' !in host && '.' !in key.name;
    IndexOfFirst(host, '.', rest);
    IndexOfFirst(key.name, '.', domain);
    assert address[..|host|] == host && address[|host| + 1..] == rest;
    assert rest[..|key.name|] == key.name && rest[|key.name| + 1..] == domain;
  }

  lemma SlotsRead(slots: nat)
    requires slots < INT64_LIMIT
    ensures Atoi(FormatInt(slots)) == Some(slots) && '\n' !in FormatInt(slots)
  {
    AtoiOfItoa(slots);
    ItoaRoundTrip(slots);
  }

  /** Cutting a line before the first character of its separator. */
  lemma CutLine(address: string, separator: string, digits: string)
    requires separator != [] && separator[0] !in address
    ensures var line := address + separator + digits;
            && IndexOf(line, separator[0]) == |address| < |line|
            && line[..|address|] == address && separator <= line[|address|..]
            && line[|address| + |separator|..] == digits
  {
    var line := address + separator + digits;
    assert line == address + [separator[0]] + (separator[1..] + digits);
    IndexOfFirst(address, separator[0], separator[1..] + digits);
  }

  lemma HostLineParts(host: string, key: Key, slots: int, mpi: MpiImplementation)
    ensures HostLine(host, key, slots, mpi) ==
            Address(host, key) + (if mpi == OpenMPI then " slots=" else ":") + FormatInt(slots)
  {
    hide Address, FormatInt;
    assert " slots=" == [' '] + "slots=";
  }

  /** One line of the hostfile reads back as its host, the job's name and namespace, and the slots. */
  lemma HostLineReads(host: string, key: Key, slots: nat, mpi: MpiImplementation)
    requires Plain(host) && Plain(key.name) && Plain(key.namespace) && slots < INT64_LIMIT
    ensures '\n' !in HostLine(host, key, slots, mpi)
    ensures ReadHostLine(HostLine(host, key, slots, mpi), mpi) ==
            Some(HostEntry(host, key.name, key.namespace + ".svc", slots))
  {
    HostLineParts(host, key, slots, mpi);
    assert '\n' !in " slots=" && '\n' !in ":";
    hide Address, ReadEntry, FormatInt, HostLine, Plain;
    EntryReads(host, key, slots, if mpi == OpenMPI then " slots=" else ":");
  }

  lemma EntryReads(host: string, key: Key, slots: nat, keyword: string)
    requires Plain(host) && Plain(key.name) && Plain(key.namespace) && slots < INT64_LIMIT
    requires keyword != "" && keyword[0] in {' ', ':'} && '\n' !in keyword
    ensures var line := Address(host, key) + keyword + FormatInt(slots);
            '\n' !in line
            && ReadEntry(line, keyword) == Some(HostEntry(host, key.name, key.namespace + ".svc", slots))
  {
    AddressChars(host, key);
    AddressSplits(host, key);
    SlotsRead(slots);
    hide Address, SplitAddress, Atoi, FormatInt, Plain, IndexOf;
    CutLine(Address(host, key), keyword, FormatInt(slots));
  }

  lemma AcceptedReplicas(name: string, spec: GroupJobSpec)
    requires Accepts(name, spec)
    ensures spec.WorkerReplicas() >= 0 && Slots(spec) >= 0 && Plain(name)
    ensures spec.mpiImplementation in {OpenMPI, Intel, MPICH}
  {
    WorkerNameIsLabel(name, LastWorkerIndex(spec));
  }

  /** The hosts of an accepted job: the launcher first if and only if it runs as a worker, then
      workers 0 to n - 1 in order; no two alike, every one a DNS label. */
  lemma HostsOfAcceptedJob(key: Key, spec: GroupJobSpec)
    requires Accepts(key.name, spec)
    ensures var offset := if spec.RunsLauncherAsWorker() then 1 else 0;
            && |Hosts(key, spec)| == spec.WorkerReplicas() + offset
            && (offset == 1 ==> Hosts(key, spec)[0] == LauncherName(key.name))
            && forall i :: 0 <= i < spec.WorkerReplicas() ==> Hosts(key, spec)[i + offset] == WorkerName(key.name, i)
    ensures NoDup(Hosts(key, spec))
    ensures forall h :: h in Hosts(key, spec) ==> IsDnsLabel(h)
  {
    AcceptedHostnames(key.name, spec);
    AcceptedReplicas(key.name, spec);
    var hosts := Hosts(key, spec);
    var offset := if spec.RunsLauncherAsWorker() then 1 else 0;
    forall i, j | 0 <= i < j < |hosts| ensures hosts[i] != hosts[j] {
      if i >= offset {
        WorkerNameInjective(key.name, i - offset, key.name, j - offset);
      } else {
        WorkerIsNotLauncher(key.name, j - offset, key.name);
      }
    }
  }

  /** Reading the hostfile back, in the format its MPI implementation uses, gives the launcher first if and only
      if it runs as a worker, then workers 0 to n - 1 by name, each in the domain of the job's Service and with
      the slots the spec gives, or one. */
  lemma HostfileRoundTrip(key: Key, spec: GroupJobSpec)
    requires Accepts(key.name, spec) && Plain(key.namespace)
    ensures var entries := ReadHostfile(Hostfile(key, spec), spec.mpiImplementation);
            var first := if spec.runLauncherAsWorker == Some(true) then 1 else 0;
            var slots := if spec.slotsPerWorker.Some? then spec.slotsPerWorker.value else 1;
            && |entries| == first + spec.WorkerReplicas()
            && (first == 1 ==>
                  entries[0] == Some(HostEntry(key.name + "-launcher", key.name, key.namespace + ".svc", slots)))
            && forall i: nat :: i < spec.WorkerReplicas() ==>
                 entries[first + i] ==
                 Some(HostEntry(key.name + "-worker-" + Itoa(i), key.name, key.namespace + ".svc", slots))
  {
    hide ReadHostfile, HostLines, Unlines, Hosts, Accepts, Plain, IsDnsLabel, NoDup, Itoa;
    AcceptedReplicas(key.name, spec);
    HostsOfAcceptedJob(key, spec);
    LabelsArePlain();
    HostLinesRead(Hosts(key, spec), key, Slots(spec), spec.mpiImplementation);
    var first := if spec.runLauncherAsWorker == Some(true) then 1 else 0;
    forall i: nat | i < spec.WorkerReplicas()
      ensures Hosts(key, spec)[first + i] == key.name + "-worker-" + Itoa(i)
    {
      assert Hosts(key, spec)[i + first] == WorkerName(key.name, i);
    }
  }

  lemma LabelsArePlain()
    ensures forall h: string :: IsDnsLabel(h) ==> Plain(h)
  {
  }

  lemma HostLinesRead(hosts: seq<string>, key: Key, slots: nat, mpi: MpiImplementation)
    requires forall h :: h in hosts ==> Plain(h)
    requires Plain(key.name) && Plain(key.namespace) && slots < INT64_LIMIT
    ensures ReadHostfile(Unlines(HostLines(hosts, key, slots, mpi)), mpi) ==
            seq(|hosts|, i requires 0 <= i < |hosts| =>
              Some(HostEntry(hosts[i], key.name, key.namespace + ".svc", slots)))
  {
    hide HostLine, ReadHostLine;
    var lines := HostLines(hosts, key, slots, mpi);
    forall i | 0 <= i < |hosts|
      ensures '\n' !in lines[i]
      ensures ReadHostLine(lines[i], mpi) == Some(HostEntry(hosts[i], key.name, key.namespace + ".svc", slots))
    {
      HostLineReads(hosts[i], key, slots, mpi);
    }
    LinesOfUnlines(lines);
  }

  /* ---- discover_hosts.sh ---- */

  lemma {:induction false} LastIndexOfLast(a: string, c: char, b: string)
    requires c !in b
    ensures LastIndexOf(a + [c] + b, c) == |a|
    decreases b
  {
    var s := a + [c] + b;
    if b != [] {
      var init := b[..|b| - 1];
      assert s[..|s| - 1] == a + [c] + init && s[|s| - 1] == b[|b| - 1];
      LastIndexOfLast(a, c, init);
    }
  }

  lemma CutLast(a: string, b: string)
    requires '.' !in b
    ensures var s := a + "." + b;
            LastIndexOf(s, '.') == |a| && s[..|a|] == a && s[|a| + 1..] == b
  {
    assert a + "." + b == a + ['.'] + b;
    LastIndexOfLast(a, '.', b);
  }

  lemma AddressSplitsFromEnd(host: string, key: Key)
    requires Plain(key.name) && Plain(key.namespace)
    ensures SplitFromEnd(Address(host, key)) == Some(ScriptEntry(host, key.name, key.namespace, "svc"))
  {
    assert '.' !in "svc" && '.' !in key.namespace && '.' !in key.name;
    hide LastIndexOf, Plain;
    var a := host + "." + key.name;
    var b := a + "." + key.namespace;
    CutLast(host, key.name);
    CutLast(a, key.namespace);
    CutLast(b, "svc");
    var address := Address(host, key);
    assert address == b + "." + "svc" by {
      assert ".svc" == "." + "svc";
    }
    assert address[..|b|] == b && b[..|a|] == a;
    assert address[|a| + 1..|b|] == b[|a| + 1..] && address[..|a|] == a;
    assert address[|host| + 1..|a|] == a[|host| + 1..] && address[..|host|] == host;
  }

  lemma EchoLineReads(host: string, key: Key)
    requires Dotted(host) && Plain(key.name) && Plain(key.namespace)
    ensures '\n' !in EchoLine(host, key)
    ensures ReadEchoLine(EchoLine(host, key)) == Some(ScriptEntry(host, key.name, key.namespace, "svc"))
  {
    AddressDotted(host, key);
    AddressSplitsFromEnd(host, key);
    hide Address, SplitFromEnd;
    assert EchoLine(host, key)[5..] == Address(host, key) && '\n' !in "echo ";
  }

  lemma AddressDotted(host: string, key: Key)
    requires Dotted(host) && Plain(key.name) && Plain(key.namespace)
    ensures Dotted(Address(host, key))
  {
    assert ".svc" == ['.', 's', 'v', 'c'];
    assert forall c :: c in Address(host, key) ==> c in host || c in key.name || c in key.namespace || c in ".svc";
  }

  lemma ScriptHostsDotted(key: Key, spec: GroupJobSpec, running: seq<string>)
    requires Plain(key.name) && forall h :: h in running ==> Dotted(h)
    ensures forall h :: h in ScriptHosts(key, spec, running) ==> Dotted(h)
  {
    LauncherNamePlain(key.name);
    assert Dotted(LauncherName(key.name));
    var sorted := SortNames(running);
    hide SortNames, Plain, Dotted, LauncherName, Sorted;
    forall h | h in sorted ensures h in running {
      assert h in multiset(sorted);
    }
  }

  lemma EchoLinesRead(hosts: seq<string>, key: Key)
    requires Plain(key.name) && Plain(key.namespace) && forall h :: h in hosts ==> Dotted(h)
    ensures ReadScript(Unlines([SCRIPT_HEADER] + EchoLines(hosts, key))) ==
            seq(|hosts|, i requires 0 <= i < |hosts| => Some(ScriptEntry(hosts[i], key.name, key.namespace, "svc")))
  {
    hide EchoLine, ReadEchoLine, Plain, Dotted, Unlines;
    var lines := EchoLines(hosts, key);
    forall i | 0 <= i < |hosts|
      ensures '\n' !in lines[i]
      ensures ReadEchoLine(lines[i]) == Some(ScriptEntry(hosts[i], key.name, key.namespace, "svc"))
    {
      EchoLineReads(hosts[i], key);
    }
    assert '\n' !in SCRIPT_HEADER;
    LinesOfUnlines([SCRIPT_HEADER] + lines);
  }

  /** Is `a` no later than `b` in a dictionary, by character code? */
  ghost predicate NoLater(a: string, b: string) {
    exists k: nat :: k <= |a| && k <= |b| && a[..k] == b[..k] && (k == |a| || (k < |b| && a[k] < b[k]))
  }

  lemma {:induction false} StrLeNoLater(a: string, b: string)
    requires StrLe(a, b)
    ensures NoLater(a, b)
  {
    if a == "" || a[0] != b[0] {
      assert a[..0] == b[..0];
    } else {
      StrLeNoLater(a[1..], b[1..]);
      var k: nat :| k <= |a[1..]| && k <= |b[1..]| && a[1..][..k] == b[1..][..k]
                    && (k == |a[1..]| || (k < |b[1..]| && a[1..][k] < b[1..][k]));
      assert a[..k + 1] == [a[0]] + a[1..][..k] && b[..k + 1] == [b[0]] + b[1..][..k];
    }
  }

  /** Do the entries name the pods, in the order of their names? */
  ghost predicate ListsByName(entries: seq<Option<ScriptEntry>>, pods: seq<string>) {
    && |entries| == |pods|
    && (forall i :: 0 <= i < |entries| ==> entries[i].Some?)
    && (forall i, j :: 0 <= i < j < |entries| ==> NoLater(entries[i].value.host, entries[j].value.host))
    && multiset(seq(|entries|, i requires 0 <= i < |entries| => entries[i].GetOr(NO_ENTRY).host)) == multiset(pods)
  }

  const NO_ENTRY := ScriptEntry("", "", "", "")

  lemma SortedListsByName(entries: seq<Option<ScriptEntry>>, names: seq<string>, pods: seq<string>)
    requires Sorted(names) && multiset(names) == multiset(pods) && |entries| == |names|
    requires forall i :: 0 <= i < |names| ==> entries[i].Some? && entries[i].value.host == names[i]
    ensures ListsByName(entries, pods)
  {
    hide StrLe, NoLater;
    assert |multiset(names)| == |multiset(pods)|;
    forall i, j | 0 <= i < j < |entries| ensures NoLater(entries[i].value.host, entries[j].value.host) {
      StrLeNoLater(names[i], names[j]);
    }
    assert seq(|entries|, i requires 0 <= i < |entries| => entries[i].GetOr(NO_ENTRY).host) == names;
  }

  /** Running the script prints the launcher if and only if it runs as a worker, then the running pods, each in
      the domain of the job's Service, in the order of their names and whatever these are. */
  lemma DiscoverHostsReads(key: Key, spec: GroupJobSpec, running: seq<string>)
    requires Plain(key.name) && Plain(key.namespace) && forall h :: h in running ==> Dotted(h)
    ensures var printed := ReadScript(DiscoverHosts(key, spec, running));
            var first := if spec.runLauncherAsWorker == Some(true) then 1 else 0;
            && |printed| >= first
            && (forall i :: 0 <= i < |printed| ==>
                  && printed[i].Some? && printed[i].value.job == key.name
                  && printed[i].value.namespace == key.namespace && printed[i].value.suffix == "svc")
            && (first == 1 ==> printed[0].value.host == key.name + "-launcher")
            && ListsByName(printed[first..], running)
  {
    hide EchoLines, Unlines, Plain, Dotted, ReadScript, Sorted, ListsByName;
    ScriptHostsDotted(key, spec, running);
    EchoLinesRead(ScriptHosts(key, spec, running), key);
    var printed := ReadScript(DiscoverHosts(key, spec, running));
    var first := if spec.runLauncherAsWorker == Some(true) then 1 else 0;
    SortedListsByName(printed[first..], SortNames(running), running);
  }

  lemma LauncherNamePlain(name: string)
    requires Plain(name)
    ensures Plain(LauncherName(name))
  {
    ConcatChars(name, LAUNCHER_SUFFIX);
  }

  /** The data depends on the set of running pods alone, not on the order the lister returns them in. */
  lemma ConfigDataCanonical(key: Key, spec: GroupJobSpec, running: seq<string>, running': seq<string>)
    requires NoDup(running) && NoDup(running') && forall h :: h in running <==> h in running'
    ensures ConfigData(key, spec, running) == ConfigData(key, spec, running')
  {
    var names := set h | h in running;
    NoDupMultiset(running, names);
    NoDupMultiset(running', names);
    SortedUnique(SortNames(running), SortNames(running'));
  }
}
