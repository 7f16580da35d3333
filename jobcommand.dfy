/**
 * The submission side of `getDesiredJob`: the `flink run` command line the
 * job container executes and the remote-jar indirection (a remote jar is
 * submitted from a fixed local path, and its URI is handed to the
 * container's entrypoint in FLINK_JOB_JAR_URI so that it can download it).
 */
module JobCommand {
  import opened Wrappers
  import opened Text
  import opened Resources
  import opened Naming

  const JOB_JAR_DIR := "/opt/flink/job/"
  const JAR_URI_ENV := "FLINK_JOB_JAR_URI"

  /** `<cluster>-jobmanager:<ui port>`, the address `flink run` submits to. */
  function JobManagerAddress(clusterName: string, uiPort: int32): (r: string)
    ensures var host := JobManagerServiceName(clusterName);
      && |r| > |host| + 1 && r[..|host| + 1] == host + ":"
      && ParseDecimal(r[|host| + 1..]) == Some(uiPort as int)
  {
    var host := JobManagerServiceName(clusterName);
    DecimalRoundTrip(uiPort as int);
    assert (host + ":" + IntToDecimal(uiPort as int))[|host| + 1..] == IntToDecimal(uiPort as int);
    host + ":" + IntToDecimal(uiPort as int)
  }

  /** A jar reference with a scheme separator is remote; a plain path (no ':') is local. */
  function IsRemoteJar(jarFile: string): (r: bool)
    ensures r ==> |jarFile| >= 3
    ensures ':' !in jarFile ==> !r
  {
    var r := Contains(jarFile, "://");
    assert ':' !in jarFile ==> !r by {
      if ':' !in jarFile {
        NoColonNoScheme(jarFile);
      }
    }
    r
  }

  /**
   * The path the job is submitted with: a remote jar is staged under
   * JOB_JAR_DIR by its file name (the last segment of the URI); a local path
   * is used as it is.
   */
  function JarPath(jarFile: string): (r: string)
    ensures IsRemoteJar(jarFile) ==>
      && |JOB_JAR_DIR| <= |r| < |JOB_JAR_DIR| + |jarFile|
      && r[..|JOB_JAR_DIR|] == JOB_JAR_DIR
      && var fileName := r[|JOB_JAR_DIR|..];
      && '/' !in fileName
      && fileName == jarFile[|jarFile| - |fileName|..]
      && jarFile[|jarFile| - |fileName| - 1] == '/'
    ensures !IsRemoteJar(jarFile) ==> r == jarFile
  {
    if IsRemoteJar(jarFile) then
      var fileName := LastSegment(jarFile);
      assert fileName != jarFile by {
        var i :| 0 <= i <= |jarFile| - 3 && OccursAt(jarFile, "://", i);
        assert jarFile[i..i + 3][1] == '/';
      }
      assert (JOB_JAR_DIR + fileName)[|JOB_JAR_DIR|..] == fileName;
      JOB_JAR_DIR + fileName
    else jarFile
  }

  /** The job container's environment: the cluster's env vars, then the jar URI when the jar is remote. */
  function JobEnv(envVars: seq<EnvVar>, jarFile: string): (r: seq<EnvVar>)
    ensures |envVars| <= |r| && r[..|envVars|] == envVars
    ensures IsRemoteJar(jarFile) ==> r[|envVars|..] == [EnvVar(JAR_URI_ENV, jarFile, None)]
    ensures !IsRemoteJar(jarFile) ==> r == envVars
  {
    if IsRemoteJar(jarFile) then envVars + [EnvVar(JAR_URI_ENV, jarFile, None)] else envVars
  }

  /** `name value` when the optional value is set. */
  function ValueOption(name: string, value: Option<string>): seq<string> {
    if value.Some? then [name, value.value] else []
  }

  /** `name` alone when the optional flag is set and true. */
  function FlagOption(name: string, flag: Option<bool>): seq<string> {
    if flag == Some(true) then [name] else []
  }

  /**
   * The options between the JobManager address and the jar, in their fixed
   * order: at most five, none when nothing is set, and each starting with its
   * option word.
   */
  function JobOptions(job: JobSpec): (r: seq<string>)
    ensures |r| <= 8
    ensures r == [] <==>
      && job.className.None? && job.savepoint.None? && job.allowNonRestoredState != Some(true)
      && job.parallelism.None? && job.noLoggingToStdout != Some(true)
    ensures r != [] ==> IsOptionWord(r[0])
  {
    ValueOption("--class", job.className)
    + ValueOption("--fromSavepoint", job.savepoint)
    + FlagOption("--allowNonRestoredState", job.allowNonRestoredState)
    + ValueOption("--parallelism", ParallelismText(job))
    + FlagOption("--sysoutLogging", job.noLoggingToStdout)
  }

  /** The job container's arguments. */
  function JobArgs(clusterName: string, uiPort: int32, job: JobSpec): (r: seq<string>)
    ensures 5 + |job.args| <= |r| <= 13 + |job.args|
    ensures r[..4] == ["./bin/flink", "run", "--jobmanager", JobManagerAddress(clusterName, uiPort)]
    ensures r[|r| - |job.args| - 1] == JarPath(job.jarFile)
    ensures r[|r| - |job.args|..] == job.args
  {
    ["./bin/flink", "run", "--jobmanager", JobManagerAddress(clusterName, uiPort)]
    + JobOptions(job) + [JarPath(job.jarFile)] + job.args
  }

  // ---------------------------------------------------------------- reading the command line back

  /** What a `flink run` command line asks for. */
  datatype Submission = Submission(
    jobManager: string,
    className: Option<string>,
    savepoint: Option<string>,
    allowNonRestoredState: bool,
    parallelism: Option<int>,
    sysoutLogging: bool,
    jar: string,
    args: seq<string>)

  predicate IsOptionWord(s: string) {
    s in ["--class", "--fromSavepoint", "--allowNonRestoredState", "--parallelism", "--sysoutLogging"]
  }

  /** Takes `name value` off the front of `words` when it is there. */
  function TakeValue(name: string, words: seq<string>): (Option<string>, seq<string>) {
    if |words| >= 2 && words[0] == name then (Some(words[1]), words[2..]) else (None, words)
  }

  /** Takes the flag `name` off the front of `words` when it is there. */
  function TakeFlag(name: string, words: seq<string>): (bool, seq<string>) {
    if |words| >= 1 && words[0] == name then (true, words[1..]) else (false, words)
  }

  /** The options of a command line as read back; flags read as set or not set. */
  datatype Options = Options(
    className: Option<string>,
    savepoint: Option<string>,
    allowNonRestoredState: bool,
    parallelism: Option<string>,
    sysoutLogging: bool)

  /** Reads the options off the front of `words`, in the order `JobOptions` writes them. */
  function ParseOptions(words: seq<string>): (Options, seq<string>) {
    var (className, r1) := TakeValue("--class", words);
    var (savepoint, r2) := TakeValue("--fromSavepoint", r1);
    var (allow, r3) := TakeFlag("--allowNonRestoredState", r2);
    var (parallelism, r4) := TakeValue("--parallelism", r3);
    var (sysout, r5) := TakeFlag("--sysoutLogging", r4);
    (Options(className, savepoint, allow, parallelism, sysout), r5)
  }

  /** Reads a command line of the shape `JobArgs` writes; None when it has another shape. */
  function ParseJobArgs(words: seq<string>): Option<Submission> {
    if |words| < 4 || words[..3] != ["./bin/flink", "run", "--jobmanager"] then None
    else
      var (options, rest) := ParseOptions(words[4..]);
      var parallelism := if options.parallelism.Some? then ParseDecimal(options.parallelism.value) else None;
      if rest == [] || (options.parallelism.Some? && parallelism.None?) then None
      else Some(Submission(words[3], options.className, options.savepoint, options.allowNonRestoredState,
                           parallelism, options.sysoutLogging, rest[0], rest[1..]))
  }

  lemma TakeValueOf(name: string, value: Option<string>, rest: seq<string>)
    requires rest != [] && rest[0] != name
    ensures TakeValue(name, ValueOption(name, value) + rest) == (value, rest)
  {
    var words := ValueOption(name, value) + rest;
    if value.Some? {
      assert words[0] == name && words[1] == value.value;
      assert words[2..] == rest;
    } else {
      assert words == rest;
    }
  }

  lemma TakeFlagOf(name: string, flag: Option<bool>, rest: seq<string>)
    requires rest != [] && rest[0] != name
    ensures TakeFlag(name, FlagOption(name, flag) + rest) == (flag == Some(true), rest)
  {
    var words := FlagOption(name, flag) + rest;
    if flag == Some(true) {
      assert words[0] == name;
      assert words[1..] == rest;
    } else {
      assert words == rest;
    }
  }

  /** The option text `JobOptions` writes for a parallelism. */
  function ParallelismText(job: JobSpec): Option<string> {
    if job.parallelism.Some? then Some(IntToDecimal(job.parallelism.value as int)) else None
  }

  lemma Regroup(a: seq<string>, b: seq<string>, c: seq<string>, d: seq<string>)
    ensures a + b + c + d == a + (b + (c + d))
  {}

  /** Regrouping a concatenation to the right. */
  lemma ConcatRight(a: seq<string>, b: seq<string>, c: seq<string>, d: seq<string>, e: seq<string>, t: seq<string>)
    ensures a + b + c + d + e + t == a + (b + (c + (d + (e + t))))
  {}

  /** Every option `JobOptions` writes is read back, and reading stops at the word after them. */
  lemma OptionsRoundTrip(job: JobSpec, tail: seq<string>)
    requires tail != [] && !IsOptionWord(tail[0])
    ensures ParseOptions(JobOptions(job) + tail)
      == (Options(job.className, job.savepoint, job.allowNonRestoredState == Some(true),
                  ParallelismText(job), job.noLoggingToStdout == Some(true)), tail)
  {
    var s4 := FlagOption("--sysoutLogging", job.noLoggingToStdout) + tail;
    var s3 := ValueOption("--parallelism", ParallelismText(job)) + s4;
    var s2 := FlagOption("--allowNonRestoredState", job.allowNonRestoredState) + s3;
    var s1 := ValueOption("--fromSavepoint", job.savepoint) + s2;
    ConcatRight(ValueOption("--class", job.className), ValueOption("--fromSavepoint", job.savepoint),
      FlagOption("--allowNonRestoredState", job.allowNonRestoredState),
      ValueOption("--parallelism", ParallelismText(job)), FlagOption("--sysoutLogging", job.noLoggingToStdout), tail);
    assert JobOptions(job) + tail == ValueOption("--class", job.className) + s1;
    assert s4[0] == tail[0] || s4[0] == "--sysoutLogging";
    assert s3[0] == s4[0] || s3[0] == "--parallelism";
    assert s2[0] == s3[0] || s2[0] == "--allowNonRestoredState";
    assert s1[0] == s2[0] || s1[0] == "--fromSavepoint";
    TakeValueOf("--class", job.className, s1);
    TakeValueOf("--fromSavepoint", job.savepoint, s2);
    TakeFlagOf("--allowNonRestoredState", job.allowNonRestoredState, s3);
    TakeValueOf("--parallelism", ParallelismText(job), s4);
    TakeFlagOf("--sysoutLogging", job.noLoggingToStdout, tail);
  }

  /** The submission a job spec asks for. */
  function Requested(clusterName: string, uiPort: int32, job: JobSpec): Submission {
    Submission(
      JobManagerAddress(clusterName, uiPort),
      job.className,
      job.savepoint,
      job.allowNonRestoredState == Some(true),
      if job.parallelism.Some? then Some(job.parallelism.value as int) else None,
      job.noLoggingToStdout == Some(true),
      JarPath(job.jarFile),
      job.args)
  }

  /**
   * The command line carries every submission option of the job spec, in the
   * fixed order, then the jar path, then the user arguments: reading it back
   * recovers exactly what was asked for. The jar path must not itself look
   * like one of the options.
   */
  lemma JobArgsRoundTrip(clusterName: string, uiPort: int32, job: JobSpec)
    requires !IsOptionWord(JarPath(job.jarFile))
    ensures ParseJobArgs(JobArgs(clusterName, uiPort, job)) == Some(Requested(clusterName, uiPort, job))
  {
    var words := JobArgs(clusterName, uiPort, job);
    var tail := [JarPath(job.jarFile)] + job.args;
    JobArgsSplit(clusterName, uiPort, job);
    OptionsRoundTrip(job, tail);
    if job.parallelism.Some? {
      DecimalRoundTrip(job.parallelism.value as int);
    }
    assert ParseOptions(words[4..]).1 == tail;
  }

  lemma JobArgsSplit(clusterName: string, uiPort: int32, job: JobSpec)
    ensures var words := JobArgs(clusterName, uiPort, job);
      && |words| >= 4
      && words[..3] == ["./bin/flink", "run", "--jobmanager"]
      && words[3] == JobManagerAddress(clusterName, uiPort)
      && words[4..] == JobOptions(job) + ([JarPath(job.jarFile)] + job.args)
  {
    var words := JobArgs(clusterName, uiPort, job);
    var prefix := ["./bin/flink", "run", "--jobmanager", JobManagerAddress(clusterName, uiPort)];
    var options := JobOptions(job);
    assert words == prefix + options + [JarPath(job.jarFile)] + job.args;
    Regroup(prefix, options, [JarPath(job.jarFile)], job.args);
  }

  // ---------------------------------------------------------------- worked examples

  /** A remote jar is submitted from the staging directory and its URI is passed on. */
  lemma RemoteJarExample()
    ensures JarPath("s3://bucket/path/app.jar") == JOB_JAR_DIR + "app.jar"
    ensures JobEnv([], "s3://bucket/path/app.jar") == [EnvVar(JAR_URI_ENV, "s3://bucket/path/app.jar", None)]
  {
    ExampleUriIsRemote();
    ExampleUriFileName();
  }

  lemma ExampleUriIsRemote()
    ensures IsRemoteJar("s3://bucket/path/app.jar")
  {
    var uri := "s3://bucket/path/app.jar";
    assert uri[2] == ':' && uri[3] == '/' && uri[4] == '/';
    assert uri[2..5] == "://";
    assert OccursAt(uri, "://", 2);
  }

  lemma ExampleUriFileName()
    ensures LastSegment("s3://bucket/path/app.jar") == "app.jar"
  {
    var uri := "s3://bucket/path/app.jar";
    assert uri[16] == '/' && uri[17..] == "app.jar";
    LastSegmentAfter(uri, 16);
  }

  /** A local jar is submitted as it is and adds nothing to the environment. */
  lemma LocalJarExample(envVars: seq<EnvVar>)
    ensures JarPath("./local/app.jar") == "./local/app.jar"
    ensures JobEnv(envVars, "./local/app.jar") == envVars
  {
    NoColonNoScheme("./local/app.jar");
  }

  function WordCountJob(className: string, userArgs: seq<string>): JobSpec {
    JobSpec("./examples/batch/WordCount.jar", Some(className), userArgs, None, None, Some(2), None, "OnFailure", [], [])
  }

  lemma WordCountParts(className: string, userArgs: seq<string>)
    ensures JobOptions(WordCountJob(className, userArgs)) == ["--class", className, "--parallelism", "2"]
    ensures JarPath(WordCountJob(className, userArgs).jarFile) == "./examples/batch/WordCount.jar"
  {
    NoColonNoScheme("./examples/batch/WordCount.jar");
    var job := WordCountJob(className, userArgs);
    assert ParallelismText(job) == Some("2") by {
      assert IntToDecimal(2) == "2";
    }
  }

  /** The WordCount batch example: a class, parallelism 2 and no further options. */
  lemma WordCountExample(clusterName: string, uiPort: int32, className: string, userArgs: seq<string>)
    ensures JobArgs(clusterName, uiPort, WordCountJob(className, userArgs))
      == ["./bin/flink", "run", "--jobmanager", JobManagerAddress(clusterName, uiPort),
          "--class", className, "--parallelism", "2", "./examples/batch/WordCount.jar"] + userArgs
  {
    var job := WordCountJob(className, userArgs);
    WordCountParts(className, userArgs);
    var prefix := ["./bin/flink", "run", "--jobmanager", JobManagerAddress(clusterName, uiPort)];
    assert prefix + JobOptions(job) + [JarPath(job.jarFile)] == prefix + ["--class", className, "--parallelism", "2", job.jarFile];
  }
}
