/**
 * Reading a topic's configuration from the filer. The filer itself (the
 * client connection, the file read and the JSON decoding) is an oracle: a
 * value saying whether it can be reached and what each (directory, file name)
 * holds.
 */
module Filer {
  import opened Wrappers
  import opened Topic

  /** Root directory under which every topic keeps its files. */
  const TopicsDir: string := "/topics"
  const TopicConfFile: string := "topic.conf"

  datatype Entry = Json(conf: TopicConf) | Unparseable

  datatype Filer = Filer(reachable: bool, entries: map<(string, string), Entry>)

  /** Why a partition could not be activated on this broker. */
  datatype LoadError =
    | FilerUnreachable
    | ReadConfFailed(topic: Topic, partition: Partition)
    | UnmarshalFailed(topic: Topic, partition: Partition)
    | NotAssigned(topic: Topic, partition: Partition, broker: BrokerAddress)

  /** The directory holding a topic's files: `<TopicsDir>/<namespace>/<name>`. */
  function TopicDir(t: Topic): (dir: string)
    ensures |dir| > |TopicsDir| + 1 + |t.namespace|
    ensures dir[..|TopicsDir| + 1] == TopicsDir + "/"
    ensures dir[|TopicsDir| + 1..|TopicsDir| + 1 + |t.namespace|] == t.namespace
    ensures dir[|TopicsDir| + 1 + |t.namespace|..] == "/" + t.name
  {
    TopicsDir + "/" + t.namespace + "/" + t.name
  }

  /**
   * Fetches and decodes `topic.conf` from the topic's directory. A filer that
   * cannot be reached, a missing file and an undecodable file are distinct
   * failures; none is retried.
   */
  function ReadTopicConfFromFiler(f: Filer, t: Topic, p: Partition): (r: Result<TopicConf, LoadError>)
    ensures r.Success? <==>
      f.reachable && (TopicDir(t), TopicConfFile) in f.entries && f.entries[(TopicDir(t), TopicConfFile)].Json?
    ensures r.Success? ==> r.value == f.entries[(TopicDir(t), TopicConfFile)].conf
    ensures !f.reachable ==> r == Failure(FilerUnreachable)
    ensures f.reachable && (TopicDir(t), TopicConfFile) !in f.entries ==> r == Failure(ReadConfFailed(t, p))
    ensures f.reachable && (TopicDir(t), TopicConfFile) in f.entries && f.entries[(TopicDir(t), TopicConfFile)].Unparseable? ==>
      r == Failure(UnmarshalFailed(t, p))
  {
    if !f.reachable then Failure(FilerUnreachable)
    else if (TopicDir(t), TopicConfFile) !in f.entries then Failure(ReadConfFailed(t, p))
    else match f.entries[(TopicDir(t), TopicConfFile)]
      case Unparseable => Failure(UnmarshalFailed(t, p))
      case Json(conf) => Success(conf)
  }

  predicate SlashFree(s: string)
  {
    forall i | 0 <= i < |s| :: s[i] != '/'
  }

  /** Index of the first '/' in s, or |s| when there is none. */
  function FirstSlash(s: string): nat
  {
    if s == [] then 0 else if s[0] == '/' then 0 else 1 + FirstSlash(s[1..])
  }

  lemma {:induction false} FirstSlashAfter(a: string, b: string)
    requires SlashFree(a)
    ensures FirstSlash(a + "/" + b) == |a|
  {
    if a != [] {
      assert (a + "/" + b)[1..] == a[1..] + "/" + b;
      FirstSlashAfter(a[1..], b);
    }
  }

  /** A slash-free first component is recovered from `a/b`, and so is the rest. */
  lemma SplitAtFirstSlash(a: string, b: string, c: string, d: string)
    requires SlashFree(a) && SlashFree(c)
    requires a + "/" + b == c + "/" + d
    ensures a == c && b == d
  {
    var s := a + "/" + b;
    FirstSlashAfter(a, b);
    FirstSlashAfter(c, d);
    assert a == s[..|a|] == c;
    assert b == s[|a| + 1..] == d;
  }

  /**
   * Distinct topics read distinct configuration files, as long as namespaces
   * contain no '/' (topic names may).
   */
  lemma TopicDirInjective(t1: Topic, t2: Topic)
    requires SlashFree(t1.namespace) && SlashFree(t2.namespace)
    ensures TopicDir(t1) == TopicDir(t2) <==> t1 == t2
  {
    if TopicDir(t1) == TopicDir(t2) {
      var n := |TopicsDir + "/"|;
      assert TopicDir(t1)[n..] == t1.namespace + "/" + t1.name;
      assert TopicDir(t2)[n..] == t2.namespace + "/" + t2.name;
      SplitAtFirstSlash(t1.namespace, t1.name, t2.namespace, t2.name);
    }
  }
}
