/**
 * Topic strings: Python's `topic.split("/")`, the device identity taken as the
 * second-to-last segment, and the "/config" suffix test of the discovery
 * callback.
 */
module Topics {
  import opened Wrappers

  /** Python's `s.split(sep)`: never empty, and no segment holds the separator. */
  function Split(s: string, sep: char): (r: seq<string>)
    ensures |r| >= 1
    ensures forall i :: 0 <= i < |r| ==> sep !in r[i]
    ensures |r| == 1 <==> sep !in s
    ensures sep !in s ==> r == [s]
  {
    if s == [] then [[]]
    else
      var rest := Split(s[1..], sep);
      if s[0] == sep then [[]] + rest
      else
        assert sep in s[1..] ==> sep in s;
        assert sep !in s ==> [s[0]] + s[1..] == s;
        [[s[0]] + rest[0]] + rest[1..]
  }

  /** Python's `sep.join(parts)`. */
  function Join(parts: seq<string>, sep: char): string
    requires |parts| >= 1
  {
    if |parts| == 1 then parts[0] else parts[0] + [sep] + Join(parts[1..], sep)
  }

  /** Splitting at a separator splits the two sides independently. */
  lemma {:induction false} SplitAround(a: string, b: string, sep: char)
    ensures Split(a + [sep] + b, sep) == Split(a, sep) + Split(b, sep)
  {
    var s := a + [sep] + b;
    if a == [] {
      assert s[0] == sep && s[1..] == b;
    } else {
      assert s[0] == a[0] && s[1..] == a[1..] + [sep] + b;
      SplitAround(a[1..], b, sep);
    }
  }

  /** Splitting undoes joining, whatever the number of segments. */
  lemma {:induction false} SplitJoin(parts: seq<string>, sep: char)
    requires |parts| >= 1
    requires forall i :: 0 <= i < |parts| ==> sep !in parts[i]
    ensures Split(Join(parts, sep), sep) == parts
  {
    if |parts| > 1 {
      SplitJoin(parts[1..], sep);
      SplitAround(parts[0], Join(parts[1..], sep), sep);
      assert [parts[0]] + parts[1..] == parts;
    }
  }

  /**
   * `topic.split("/")[-2]`: the device identity. None stands for the
   * IndexError Python raises when the topic holds no "/".
   */
  function DeviceId(topic: string): (r: Option<string>)
    ensures r.None? <==> '/' !in topic
    ensures r.Some? ==> '/' !in r.value
  {
    var parts := Split(topic, '/');
    if |parts| >= 2 then Some(parts[|parts| - 2]) else None
  }

  /** The device identity is the second-to-last segment at any nesting depth. */
  lemma DeviceIdAnyDepth(segments: seq<string>)
    requires |segments| >= 2
    requires forall i :: 0 <= i < |segments| ==> '/' !in segments[i]
    ensures DeviceId(Join(segments, '/')) == Some(segments[|segments| - 2])
  {
    SplitJoin(segments, '/');
    DeviceIdOfSplit(Join(segments, '/'), segments);
  }

  lemma DeviceIdOfSplit(topic: string, parts: seq<string>)
    requires Split(topic, '/') == parts && |parts| >= 2
    ensures DeviceId(topic) == Some(parts[|parts| - 2])
  {
  }

  const ConfigSuffix: string := "/config"

  /** `topic.endswith("/config")`. */
  predicate IsConfigTopic(topic: string) {
    |topic| >= |ConfigSuffix| && topic[|topic| - |ConfigSuffix|..] == ConfigSuffix
  }

  /**
   * A topic ending in "/config" always has an identity (so the discovery
   * callback never meets the IndexError), namely the last segment of what
   * precedes the suffix.
   */
  lemma ConfigTopicIdentity(topic: string)
    requires IsConfigTopic(topic)
    ensures DeviceId(topic) == Some(LastSegment(topic[..|topic| - |ConfigSuffix|]))
  {
    var prefix := topic[..|topic| - |ConfigSuffix|];
    assert topic == prefix + ConfigSuffix;
    DeviceIdBeforeSuffix(prefix, topic);
  }

  lemma DeviceIdBeforeSuffix(prefix: string, topic: string)
    requires topic == prefix + ConfigSuffix
    ensures DeviceId(topic) == Some(LastSegment(prefix))
  {
    assert topic == prefix + ['/'] + "config";
    SplitAround(prefix, "config", '/');
    assert Split("config", '/') == ["config"];
    DeviceIdOfSuffixed(topic, prefix, "config");
  }

  /** `s.split("/")[-1]`. */
  function LastSegment(s: string): string {
    var parts := Split(s, '/');
    parts[|parts| - 1]
  }

  /** The identity of a topic split as `prefix`'s segments then `last` is `prefix`'s last segment. */
  lemma DeviceIdOfSuffixed(topic: string, prefix: string, last: string)
    requires Split(topic, '/') == Split(prefix, '/') + [last]
    ensures DeviceId(topic) == Some(LastSegment(prefix))
  {
    var parts := Split(prefix, '/');
    var all := parts + [last];
    assert all[|all| - 2] == parts[|parts| - 1];
    DeviceIdOfSplit(topic, all);
  }

  /** The identity of `<prefix>/<id>/config` is `id`. */
  lemma DeviceIdOfConfigTopic(prefix: string, id: string)
    requires '/' !in id
    ensures IsConfigTopic(prefix + "/" + id + ConfigSuffix)
    ensures DeviceId(prefix + "/" + id + ConfigSuffix) == Some(id)
  {
    var topic := prefix + "/" + id + ConfigSuffix;
    assert topic[|topic| - |ConfigSuffix|..] == ConfigSuffix;
    assert topic == prefix + ['/'] + (id + ['/'] + "config");
    SplitAround(prefix, id + ['/'] + "config", '/');
    SplitAround(id, "config", '/');
    DeviceIdOfSplit(topic, Split(prefix, '/') + (Split(id, '/') + Split("config", '/')));
  }
}
