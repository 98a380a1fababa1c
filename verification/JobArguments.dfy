/** The command line of the Job (controllers/flinkcluster_converter.go, getDesiredJob) and its reader
    (controllers/flinkcluster_util.go, getFromSavepoint). */
module JobArguments {
  import opened FlinkTypes

  const FROM_SAVEPOINT := "--fromSavepoint"

  /** The element after the first flag that is not in last place, "" if there is none. */
  function FromSavepointArg(args: seq<string>): string {
    if |args| < 2 then ""
    else if args[0] == FROM_SAVEPOINT then args[1]
    else FromSavepointArg(args[1..])
  }

  method GetFromSavepoint(jobArgs: seq<string>) returns (savepoint: string)
    ensures savepoint == FromSavepointArg(jobArgs)
  {
    for i := 0 to |jobArgs|
      invariant FromSavepointArg(jobArgs) == FromSavepointArg(jobArgs[i..])
    {
      if jobArgs[i] == FROM_SAVEPOINT && i < |jobArgs| - 1 {
        return jobArgs[i + 1];
      }
      assert jobArgs[i..][1..] == jobArgs[i + 1..];
    }
    return "";
  }

  /******* Building the arguments *******/

  predicate IsDigit(c: char) {
    '0' <= c <= '9'
  }

  /** The decimal text of a number, as strconv and fmt print it. */
  function Decimal(n: int): (text: string)
    ensures |text| > 0
    ensures |text| > 1 ==> IsDigit(text[1])
    ensures forall i :: 0 <= i < |text| ==> IsDigit(text[i]) || text[i] == '-'
  {
    if n < 0 then "-" + Magnitude(-n) else Magnitude(n)
  }

  function Magnitude(n: nat): (text: string)
    ensures |text| > 0
    ensures forall i :: 0 <= i < |text| ==> IsDigit(text[i])
  {
    if n < 10 then ['0' + n as char] else Magnitude(n / 10) + ['0' + (n % 10) as char]
  }

  predicate Contains(s: string, part: string) {
    |part| <= |s| && (s[..|part|] == part || (s != "" && Contains(s[1..], part)))
  }

  /** The text after the last slash. */
  function LastSegment(path: string): string {
    if path == "" then ""
    else if path[|path| - 1] == '/' then ""
    else LastSegment(path[..|path| - 1]) + [path[|path| - 1]]
  }

  /** A remote JAR is downloaded by the entry point of the container and run from a local path. */
  function JarPath(jarFile: string): string {
    if Contains(jarFile, "://") then "/opt/flink/job/" + LastSegment(jarFile) else jarFile
  }

  function JobManagerAddress(clusterName: string, uiPort: int): string {
    clusterName + "-jobmanager" + ":" + Decimal(uiPort)
  }

  function HeadArgs(clusterName: string, uiPort: int): seq<string> {
    ["/opt/flink/bin/flink", "run", "--jobmanager", JobManagerAddress(clusterName, uiPort)]
  }

  function ClassArgs(job: JobSpec): seq<string> {
    if job.className.Some? then ["--class", job.className.value] else []
  }

  function SavepointArgs(savepoint: Option<string>): seq<string> {
    if savepoint.Some? then [FROM_SAVEPOINT, savepoint.value] else []
  }

  function AllowArgs(job: JobSpec): seq<string> {
    if job.allowNonRestoredState == Some(true) then ["--allowNonRestoredState"] else []
  }

  function ParallelismArgs(job: JobSpec): seq<string> {
    if job.parallelism.Some? then ["--parallelism", Decimal(job.parallelism.value)] else []
  }

  function LoggingArgs(job: JobSpec): seq<string> {
    if job.noLoggingToStdout == Some(true) then ["--sysoutLogging"] else []
  }

  function OptionArgs(job: JobSpec): seq<string> {
    AllowArgs(job) + ParallelismArgs(job) + LoggingArgs(job)
  }

  function UserArgs(job: JobSpec): seq<string> {
    [JarPath(job.jarFile)] + job.args
  }

  function JobArgs(clusterName: string, uiPort: int, job: JobSpec, savepoint: Option<string>): seq<string> {
    HeadArgs(clusterName, uiPort) + ClassArgs(job) + SavepointArgs(savepoint) + OptionArgs(job) + UserArgs(job)
  }

  /** The optional part of the command line, appended piece by piece. */
  method BuildOptionArgs(start: seq<string>, job: JobSpec) returns (jobArgs: seq<string>)
    ensures jobArgs == start + OptionArgs(job)
  {
    jobArgs := start;
    if job.allowNonRestoredState.Some? && job.allowNonRestoredState.value {
      jobArgs := jobArgs + ["--allowNonRestoredState"];
    }
    assert jobArgs == start + AllowArgs(job);
    if job.parallelism.Some? {
      jobArgs := jobArgs + ["--parallelism", Decimal(job.parallelism.value)];
    }
    assert jobArgs == start + AllowArgs(job) + ParallelismArgs(job);
    if job.noLoggingToStdout.Some? && job.noLoggingToStdout.value {
      jobArgs := jobArgs + ["--sysoutLogging"];
    }
    assert jobArgs == start + AllowArgs(job) + ParallelismArgs(job) + LoggingArgs(job);
    assert jobArgs == start + OptionArgs(job);
  }

  /** getDesiredJob's argument list. */
  method BuildJobArgs(clusterName: string, uiPort: int, job: JobSpec, savepoint: Option<string>)
    returns (jobArgs: seq<string>)
    ensures jobArgs == JobArgs(clusterName, uiPort, job, savepoint)
  {
    jobArgs := ["/opt/flink/bin/flink", "run"];
    jobArgs := jobArgs + ["--jobmanager", JobManagerAddress(clusterName, uiPort)];
    ghost var head := HeadArgs(clusterName, uiPort);
    assert jobArgs == head;
    if job.className.Some? {
      jobArgs := jobArgs + ["--class", job.className.value];
    }
    assert jobArgs == head + ClassArgs(job);
    if savepoint.Some? {
      jobArgs := jobArgs + [FROM_SAVEPOINT, savepoint.value];
    }
    assert jobArgs == head + ClassArgs(job) + SavepointArgs(savepoint);
    ghost var front := jobArgs;
    jobArgs := BuildOptionArgs(jobArgs, job);
    jobArgs := jobArgs + [JarPath(job.jarFile)];
    jobArgs := jobArgs + job.args;
    assert jobArgs == front + OptionArgs(job) + UserArgs(job);
  }

  /******* Round trip *******/

  lemma {:induction false} SkipsOtherArgs(front: seq<string>, back: seq<string>)
    requires FROM_SAVEPOINT !in front
    ensures FromSavepointArg(front + back) == FromSavepointArg(back)
  {
    if front == [] {
      assert front + back == back;
    } else {
      SkipsOtherArgs(front[1..], back);
      assert (front + back)[1..] == front[1..] + back;
      assert front[0] in front;
    }
  }

  lemma FlagIsNoHeadArg(clusterName: string, uiPort: int)
    ensures FROM_SAVEPOINT !in HeadArgs(clusterName, uiPort)
  {
    var prefix := clusterName + "-jobmanager";
    assert JobManagerAddress(clusterName, uiPort)[|prefix|] == ':';
    assert FROM_SAVEPOINT[0] == '-' && FROM_SAVEPOINT[2] == 'f';
    assert "--jobmanager"[2] != 'f' && "/opt/flink/bin/flink"[0] != '-' && "run"[0] != '-';
  }

  lemma FlagIsNoClassArg(job: JobSpec)
    ensures FROM_SAVEPOINT != "--class"
    ensures FROM_SAVEPOINT in ClassArgs(job) <==> job.className == Some(FROM_SAVEPOINT)
  {
    assert FROM_SAVEPOINT[2] == 'f' && "--class"[2] != 'f';
  }

  lemma FlagIsNoOptionArg(job: JobSpec)
    ensures FROM_SAVEPOINT !in OptionArgs(job)
  {
    assert FROM_SAVEPOINT[1] == '-' && FROM_SAVEPOINT[2] == 'f';
    assert "--parallelism"[2] != 'f' && "--sysoutLogging"[2] != 'f' && "--allowNonRestoredState"[2] != 'f';
    if job.parallelism.Some? {
      assert Decimal(job.parallelism.value) != FROM_SAVEPOINT;
    }
  }

  /** The reader stops at the first flag that something follows. */
  lemma ReadsAfterFlag(front: seq<string>, next: string, back: seq<string>)
    requires FROM_SAVEPOINT !in front
    ensures FromSavepointArg(front + [FROM_SAVEPOINT, next] + back) == next
  {
    assert front + [FROM_SAVEPOINT, next] + back == front + ([FROM_SAVEPOINT, next] + back);
    SkipsOtherArgs(front, [FROM_SAVEPOINT, next] + back);
  }

  /** A class name that is the flag makes the reader return what follows it. */
  lemma ReadsAfterClassFlag(head: seq<string>, middle: seq<string>)
    requires FROM_SAVEPOINT !in head && FROM_SAVEPOINT != "--class" && |middle| > 0
    ensures FromSavepointArg(head + ["--class", FROM_SAVEPOINT] + middle) == middle[0]
  {
    assert head + ["--class", FROM_SAVEPOINT] + middle
        == head + ["--class"] + [FROM_SAVEPOINT, middle[0]] + middle[1..];
    ReadsAfterFlag(head + ["--class"], middle[0], middle[1..]);
  }

  lemma Regroup(a: seq<string>, b: seq<string>, c: seq<string>, d: seq<string>, e: seq<string>)
    ensures a + b + c + d + e == a + b + (c + (d + e)) == a + b + c + (d + e)
    ensures c == [] ==> a + b + c + d + e == a + b + d + e == a + b + (d + e)
  {
  }

  /** With a savepoint chosen, the reader returns it exactly when the class name is not the flag
      (or the savepoint is itself spelled like the flag). */
  lemma ReadsChosenSavepoint(clusterName: string, uiPort: int, job: JobSpec, savepoint: string)
    ensures FromSavepointArg(JobArgs(clusterName, uiPort, job, Some(savepoint))) == savepoint
       <==> job.className != Some(FROM_SAVEPOINT) || savepoint == FROM_SAVEPOINT
  {
    var head, rest := HeadArgs(clusterName, uiPort), OptionArgs(job) + UserArgs(job);
    FlagIsNoHeadArg(clusterName, uiPort);
    FlagIsNoClassArg(job);
    Regroup(head, ClassArgs(job), [FROM_SAVEPOINT, savepoint], OptionArgs(job), UserArgs(job));
    if job.className == Some(FROM_SAVEPOINT) {
      ReadsAfterClassFlag(head, [FROM_SAVEPOINT, savepoint] + rest);
    } else {
      ReadsAfterFlag(head + ClassArgs(job), savepoint, rest);
    }
  }

  lemma ReadsUserArgs(front: seq<string>, user: seq<string>)
    requires FROM_SAVEPOINT !in front
    ensures FromSavepointArg(front + user) == FromSavepointArg(user)
    ensures FROM_SAVEPOINT !in user ==> FromSavepointArg(user) == ""
  {
    SkipsOtherArgs(front, user);
    if FROM_SAVEPOINT !in user {
      assert user + [] == user;
      SkipsOtherArgs(user, []);
    }
  }

  /** With no savepoint chosen, the reader finds nothing exactly when the class name is not the flag
      and it finds nothing in the JAR path and the user's own arguments, which it does search. */
  lemma ReadsNothingUnlessUserArgs(clusterName: string, uiPort: int, job: JobSpec)
    requires job.jarFile != ""
    ensures FromSavepointArg(JobArgs(clusterName, uiPort, job, None)) == ""
       <==> job.className != Some(FROM_SAVEPOINT) && FromSavepointArg(UserArgs(job)) == ""
    ensures job.className != Some(FROM_SAVEPOINT) && FROM_SAVEPOINT !in UserArgs(job)
        ==> FromSavepointArg(JobArgs(clusterName, uiPort, job, None)) == ""
  {
    var head := HeadArgs(clusterName, uiPort);
    FlagIsNoHeadArg(clusterName, uiPort);
    FlagIsNoClassArg(job);
    FlagIsNoOptionArg(job);
    Regroup(head, ClassArgs(job), [], OptionArgs(job), UserArgs(job));
    if job.className == Some(FROM_SAVEPOINT) {
      FirstOptionNotEmpty(job);
      ReadsAfterClassFlag(head, OptionArgs(job) + UserArgs(job));
    } else {
      ReadsUserArgs(head + ClassArgs(job) + OptionArgs(job), UserArgs(job));
    }
  }

  lemma FirstOptionNotEmpty(job: JobSpec)
    requires job.jarFile != ""
    ensures (OptionArgs(job) + UserArgs(job))[0] != ""
  {
    assert |"/opt/flink/job/" + LastSegment(job.jarFile)| > 0;
  }

  /******* Layout *******/

  /** The number a decimal text without a sign denotes. */
  function Value(text: string): int {
    if text == "" then 0 else Value(text[..|text| - 1]) * 10 + (text[|text| - 1] as int - '0' as int)
  }

  lemma {:induction false} MagnitudeReads(n: nat)
    ensures Value(Magnitude(n)) == n
  {
    var text := Magnitude(n);
    if n < 10 {
      assert text[..0] == "";
    } else {
      MagnitudeReads(n / 10);
      assert text[..|text| - 1] == Magnitude(n / 10);
    }
  }

  lemma DecimalReads(n: int)
    ensures n >= 0 ==> Value(Decimal(n)) == n
    ensures n < 0 ==> Decimal(n)[0] == '-' && Value(Decimal(n)[1..]) == -n
  {
    MagnitudeReads(if n < 0 then -n else n);
  }

  predicate PartAt(s: string, part: string, i: int) {
    0 <= i <= |s| - |part| && s[i..i + |part|] == part
  }

  lemma PartShifts(s: string, part: string, i: int)
    requires s != "" && i > 0
    ensures PartAt(s, part, i) <==> PartAt(s[1..], part, i - 1)
  {
    if i <= |s| - |part| {
      assert s[1..][i - 1..i - 1 + |part|] == s[i..i + |part|];
    }
  }

  lemma {:induction false} ContainsFound(s: string, part: string) returns (i: int)
    requires Contains(s, part)
    ensures PartAt(s, part, i)
    decreases |s|
  {
    if s[..|part|] == part {
      i := 0;
    } else {
      i := ContainsFound(s[1..], part);
      i := i + 1;
      PartShifts(s, part, i);
    }
  }

  lemma {:induction false} FoundContains(s: string, part: string, i: int)
    requires PartAt(s, part, i)
    ensures Contains(s, part)
    decreases |s|
  {
    if i > 0 {
      PartShifts(s, part, i);
      FoundContains(s[1..], part, i - 1);
    }
  }

  lemma ContainsIff(s: string, part: string)
    ensures Contains(s, part) <==> exists i :: PartAt(s, part, i)
  {
    if Contains(s, part) {
      var i := ContainsFound(s, part);
    }
    if i :| PartAt(s, part, i) {
      FoundContains(s, part, i);
    }
  }

  lemma {:induction false} LastSegmentIs(path: string)
    ensures var last := LastSegment(path);
            && '/' !in last && |last| <= |path| && path[|path| - |last|..] == last
            && ('/' in path ==> |last| < |path| && path[|path| - |last| - 1] == '/')
            && ('/' !in path ==> last == path)
  {
    if path != "" && path[|path| - 1] != '/' {
      var front := path[..|path| - 1];
      LastSegmentIs(front);
      assert path == front + [path[|path| - 1]];
    }
  }

  /** `arg` puts the last segment of a remote JAR under the directory it is downloaded to. */
  predicate NamesRemoteJar(arg: string, jarFile: string, name: string) {
    && arg == "/opt/flink/job/" + name
    && '/' !in name && |name| < |jarFile|
    && jarFile[|jarFile| - |name|..] == name && jarFile[|jarFile| - |name| - 1] == '/'
  }

  /** A JAR is named as it is unless it is remote. */
  ghost predicate NamesJar(arg: string, jarFile: string) {
    if exists i :: PartAt(jarFile, "://", i) then exists name :: NamesRemoteJar(arg, jarFile, name)
    else arg == jarFile
  }

  lemma RemoteHasSlash(jarFile: string, i: int)
    requires PartAt(jarFile, "://", i)
    ensures '/' in jarFile
  {
    assert jarFile[i + 1] == jarFile[i..i + 3][1] == '/';
  }

  lemma JarIsNamed(jarFile: string)
    ensures NamesJar(JarPath(jarFile), jarFile)
  {
    ContainsIff(jarFile, "://");
    if i :| PartAt(jarFile, "://", i) {
      RemoteHasSlash(jarFile, i);
      LastSegmentIs(jarFile);
      assert NamesRemoteJar(JarPath(jarFile), jarFile, LastSegment(jarFile));
    }
  }

  predicate FlagAt(args: seq<string>, i: nat, flag: string) {
    i < |args| && args[i] == flag
  }

  /** An option with a value stands at `i` exactly if the value is given. */
  predicate ValueAt(args: seq<string>, i: nat, flag: string, value: Option<string>) {
    && (value.Some? <==> FlagAt(args, i, flag))
    && (value.Some? ==> FlagAt(args, i + 1, value.value))
  }

  function Width<T>(value: Option<T>): nat {
    if value.Some? then 2 else 0
  }

  function ParallelismText(job: JobSpec): Option<string> {
    if job.parallelism.Some? then Some(Decimal(job.parallelism.value)) else None
  }

  const OPTION_FLAGS: seq<string> :=
    ["--class", "--fromSavepoint", "--allowNonRestoredState", "--parallelism", "--sysoutLogging"]

  /** The options in front of the JAR, position by position. */
  predicate OptionsLaidOut(front: seq<string>, flags: seq<string>, job: JobSpec, savepoint: Option<string>)
    requires |flags| == 5
  {
    var saved := 4 + Width(job.className);
    var allowed := saved + Width(savepoint);
    var parallel := allowed + if job.allowNonRestoredState == Some(true) then 1 else 0;
    var logging := parallel + Width(job.parallelism);
    && ValueAt(front, 4, flags[0], job.className)
    && ValueAt(front, saved, flags[1], savepoint)
    && (job.allowNonRestoredState == Some(true) <==> FlagAt(front, allowed, flags[2]))
    && ValueAt(front, parallel, flags[3], ParallelismText(job))
    && (job.noLoggingToStdout == Some(true) <==> FlagAt(front, logging, flags[4]))
    && |front| == logging + if job.noLoggingToStdout == Some(true) then 1 else 0
  }

  /** The command, the address of the JobManager, the options, the JAR and the user's arguments. */
  ghost predicate LaidOut(args: seq<string>, clusterName: string, uiPort: int, job: JobSpec,
                          savepoint: Option<string>)
  {
    var jar := |args| - |job.args| - 1;
    && jar >= 4
    && args[jar + 1..] == job.args
    && NamesJar(args[jar], job.jarFile)
    && args[..3] == ["/opt/flink/bin/flink", "run", "--jobmanager"]
    && args[3] == clusterName + "-jobmanager:" + Decimal(uiPort)
    && OptionsLaidOut(args[..jar], OPTION_FLAGS, job, savepoint)
  }

  predicate StartsWithout(tail: seq<string>, flag: string) {
    tail == [] || tail[0] != flag
  }

  lemma ValueFound(front: seq<string>, part: seq<string>, tail: seq<string>, flag: string, value: Option<string>)
    requires part == (if value.Some? then [flag, value.value] else []) && StartsWithout(tail, flag)
    ensures ValueAt(front + part + tail, |front|, flag, value)
  {
  }

  lemma FlagFound(front: seq<string>, part: seq<string>, tail: seq<string>, flag: string, given: bool)
    requires part == (if given then [flag] else []) && StartsWithout(tail, flag)
    ensures given <==> FlagAt(front + part + tail, |front|, flag)
  {
  }

  function ValuePart(flag: string, value: Option<string>): seq<string> {
    if value.Some? then [flag, value.value] else []
  }

  function FlagPart(flag: string, given: bool): seq<string> {
    if given then [flag] else []
  }

  lemma FrontParts(a: seq<string>, b: seq<string>, c: seq<string>, d: seq<string>, e: seq<string>, f: seq<string>)
    ensures var front := a + b + c + (d + e + f);
            && front == a + b + (c + (d + e + f)) == a + b + c + d + (e + f)
            && front == a + b + c + d + e + f == a + b + c + d + e + f + []
  {
  }

  /** Five optional parts in a row are found where the lengths of those before say. */
  lemma PartsFound(head: seq<string>, a: seq<string>, b: seq<string>, c: seq<string>, d: seq<string>, e: seq<string>,
                   flags: seq<string>, v1: Option<string>, v2: Option<string>, g3: bool, v4: Option<string>, g5: bool)
    requires |flags| == 5
    requires a == ValuePart(flags[0], v1) && b == ValuePart(flags[1], v2) && c == FlagPart(flags[2], g3)
    requires d == ValuePart(flags[3], v4) && e == FlagPart(flags[4], g5)
    requires StartsWithout(b + (c + d + e), flags[0]) && StartsWithout(c + d + e, flags[1])
    requires StartsWithout(d + e, flags[2]) && StartsWithout(e, flags[3])
    ensures var front := head + a + b + (c + d + e);
            && ValueAt(front, |head|, flags[0], v1) && ValueAt(front, |head| + |a|, flags[1], v2)
            && (g3 <==> FlagAt(front, |head| + |a| + |b|, flags[2]))
            && ValueAt(front, |head| + |a| + |b| + |c|, flags[3], v4)
            && (g5 <==> FlagAt(front, |head| + |a| + |b| + |c| + |d|, flags[4]))
  {
    FrontParts(head, a, b, c, d, e);
    ValueFound(head, a, b + (c + d + e), flags[0], v1);
    ValueFound(head + a, b, c + d + e, flags[1], v2);
    FlagFound(head + a + b, c, d + e, flags[2], g3);
    ValueFound(head + a + b + c, d, e, flags[3], v4);
    FlagFound(head + a + b + c + d, e, [], flags[4], g5);
  }

  lemma PartsAre(job: JobSpec, savepoint: Option<string>)
    ensures ClassArgs(job) == ValuePart(OPTION_FLAGS[0], job.className)
    ensures SavepointArgs(savepoint) == ValuePart(OPTION_FLAGS[1], savepoint)
    ensures AllowArgs(job) == FlagPart(OPTION_FLAGS[2], job.allowNonRestoredState == Some(true))
    ensures ParallelismArgs(job) == ValuePart(OPTION_FLAGS[3], ParallelismText(job))
    ensures LoggingArgs(job) == FlagPart(OPTION_FLAGS[4], job.noLoggingToStdout == Some(true))
  {
  }

  /** What follows an option is empty or starts with a later option. */
  lemma TailsStart(flags: seq<string>, b: seq<string>, c: seq<string>, d: seq<string>, e: seq<string>,
                   v2: Option<string>, g3: bool, v4: Option<string>, g5: bool)
    requires |flags| == 5 && forall i, j :: 0 <= i < j < 5 ==> flags[i] != flags[j]
    requires b == ValuePart(flags[1], v2) && c == FlagPart(flags[2], g3)
    requires d == ValuePart(flags[3], v4) && e == FlagPart(flags[4], g5)
    ensures StartsWithout(b + (c + d + e), flags[0]) && StartsWithout(c + d + e, flags[1])
    ensures StartsWithout(d + e, flags[2]) && StartsWithout(e, flags[3])
  {
  }

  lemma FlagsDiffer()
    ensures forall i, j :: 0 <= i < j < 5 ==> OPTION_FLAGS[i] != OPTION_FLAGS[j]
  {
    assert |OPTION_FLAGS[0]| == 7 && |OPTION_FLAGS[1]| == 15 && |OPTION_FLAGS[2]| == 23;
    assert |OPTION_FLAGS[3]| == 13 && |OPTION_FLAGS[4]| == 15;
    assert OPTION_FLAGS[1][2] != OPTION_FLAGS[4][2];
  }

  /** The positions the widths say, given the lengths of the parts. */
  lemma WidthsAgree(front: seq<string>, flags: seq<string>, job: JobSpec, savepoint: Option<string>,
                    a: nat, b: nat, c: nat, d: nat, e: nat)
    requires |flags| == 5
    requires a == Width(job.className) && b == Width(savepoint) && d == Width(job.parallelism)
    requires c == if job.allowNonRestoredState == Some(true) then 1 else 0
    requires e == if job.noLoggingToStdout == Some(true) then 1 else 0
    requires |front| == 4 + a + b + c + d + e
    requires ValueAt(front, 4, flags[0], job.className) && ValueAt(front, 4 + a, flags[1], savepoint)
    requires job.allowNonRestoredState == Some(true) <==> FlagAt(front, 4 + a + b, flags[2])
    requires ValueAt(front, 4 + a + b + c, flags[3], ParallelismText(job))
    requires job.noLoggingToStdout == Some(true) <==> FlagAt(front, 4 + a + b + c + d, flags[4])
    ensures OptionsLaidOut(front, flags, job, savepoint)
  {
  }

  /** The same without a word on what follows each part. */
  lemma AllPartsFound(front: seq<string>, head: seq<string>, a: seq<string>, b: seq<string>, c: seq<string>,
                      d: seq<string>, e: seq<string>, flags: seq<string>, v1: Option<string>, v2: Option<string>,
                      g3: bool, v4: Option<string>, g5: bool)
    requires front == head + a + b + (c + d + e)
    requires |flags| == 5 && forall i, j :: 0 <= i < j < 5 ==> flags[i] != flags[j]
    requires a == ValuePart(flags[0], v1) && b == ValuePart(flags[1], v2) && c == FlagPart(flags[2], g3)
    requires d == ValuePart(flags[3], v4) && e == FlagPart(flags[4], g5)
    ensures ValueAt(front, |head|, flags[0], v1) && ValueAt(front, |head| + |a|, flags[1], v2)
    ensures g3 <==> FlagAt(front, |head| + |a| + |b|, flags[2])
    ensures ValueAt(front, |head| + |a| + |b| + |c|, flags[3], v4)
    ensures g5 <==> FlagAt(front, |head| + |a| + |b| + |c| + |d|, flags[4])
    ensures |front| == |head| + |a| + |b| + |c| + |d| + |e|
  {
    TailsStart(flags, b, c, d, e, v2, g3, v4, g5);
    PartsFound(head, a, b, c, d, e, flags, v1, v2, g3, v4, g5);
  }

  lemma PartWidths(job: JobSpec, savepoint: Option<string>)
    ensures |ClassArgs(job)| == Width(job.className) && |SavepointArgs(savepoint)| == Width(savepoint)
    ensures |AllowArgs(job)| == if job.allowNonRestoredState == Some(true) then 1 else 0
    ensures |ParallelismArgs(job)| == Width(job.parallelism)
    ensures |LoggingArgs(job)| == if job.noLoggingToStdout == Some(true) then 1 else 0
  {
  }

  lemma BuiltFront(head: seq<string>, job: JobSpec, savepoint: Option<string>)
    requires |head| == 4
    ensures OptionsLaidOut(head + ClassArgs(job) + SavepointArgs(savepoint) + OptionArgs(job), OPTION_FLAGS, job,
                           savepoint)
  {
    var front := head + ClassArgs(job) + SavepointArgs(savepoint) + OptionArgs(job);
    FlagsDiffer();
    PartsAre(job, savepoint);
    PartWidths(job, savepoint);
    AllPartsFound(front, head, ClassArgs(job), SavepointArgs(savepoint), AllowArgs(job), ParallelismArgs(job),
                  LoggingArgs(job), OPTION_FLAGS, job.className, savepoint, job.allowNonRestoredState == Some(true),
                  ParallelismText(job), job.noLoggingToStdout == Some(true));
    WidthsAgree(front, OPTION_FLAGS, job, savepoint, |ClassArgs(job)|, |SavepointArgs(savepoint)|, |AllowArgs(job)|,
                |ParallelismArgs(job)|, |LoggingArgs(job)|);
  }

  lemma Split(args: seq<string>, front: seq<string>, jar: string, user: seq<string>)
    requires args == front + ([jar] + user)
    ensures args[..|front|] == front && args[|front|] == jar && args[|front| + 1..] == user
    ensures |args| - |user| - 1 == |front|
  {
  }

  /** The built list can be read position by position. */
  lemma ArgsLaidOut(clusterName: string, uiPort: int, job: JobSpec, savepoint: Option<string>)
    ensures LaidOut(JobArgs(clusterName, uiPort, job, savepoint), clusterName, uiPort, job, savepoint)
  {
    var head := HeadArgs(clusterName, uiPort);
    var front := head + ClassArgs(job) + SavepointArgs(savepoint) + OptionArgs(job);
    var args := JobArgs(clusterName, uiPort, job, savepoint);
    BuiltFront(head, job, savepoint);
    JarIsNamed(job.jarFile);
    Split(args, front, JarPath(job.jarFile), job.args);
    HeadIs(clusterName, uiPort);
    assert args[..3] == head[..3] && args[3] == head[3];
  }

  lemma HeadIs(clusterName: string, uiPort: int)
    ensures var head := HeadArgs(clusterName, uiPort);
            && head[..3] == ["/opt/flink/bin/flink", "run", "--jobmanager"]
            && head[3] == clusterName + "-jobmanager:" + Decimal(uiPort)
  {
    assert "-jobmanager" + ":" == "-jobmanager:";
    assert JobManagerAddress(clusterName, uiPort) == clusterName + ("-jobmanager" + ":") + Decimal(uiPort);
  }
}
