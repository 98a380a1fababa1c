/** The flink-conf.yaml of the cluster's ConfigMap
    (controllers/flinkcluster_converter.go, getDesiredConfigMap and getFlinkProperties). */
module FlinkConf {
  import opened FlinkTypes
  import opened JobArguments
  import opened HeapSize

  /******* Properties *******/

  /** The keys a user cannot set. */
  const SYSTEM_KEYS: set<string> :=
    {"jobmanager.rpc.address", "jobmanager.rpc.port", "blob.server.port", "query.server.port", "rest.port"}

  /** The user's properties over the operator's, except for the system keys. */
  function Overlay(operator: map<string, string>, user: map<string, string>): map<string, string> {
    operator + (user - SYSTEM_KEYS)
  }

  /** Adds the user's properties one by one, in whatever order the map is walked. */
  method AddUserProperties(operator: map<string, string>, user: map<string, string>)
    returns (flinkProps: map<string, string>)
    ensures flinkProps == Overlay(operator, user)
  {
    flinkProps := operator;
    var rest := user.Keys;
    while rest != {}
      invariant rest <= user.Keys
      invariant flinkProps == operator + (user - SYSTEM_KEYS - rest)
      decreases rest
    {
      var k :| k in rest;
      if k !in SYSTEM_KEYS {
        flinkProps := flinkProps[k := user[k]];
        assert user - SYSTEM_KEYS - (rest - {k}) == (user - SYSTEM_KEYS - rest)[k := user[k]];
      } else {
        assert user - SYSTEM_KEYS - (rest - {k}) == user - SYSTEM_KEYS - rest;
      }
      rest := rest - {k};
    }
    assert user - SYSTEM_KEYS - {} == user - SYSTEM_KEYS;
  }

  /** Exactly when computing the properties dereferences no nil pointer. */
  predicate PropertiesSafe(spec: ClusterSpec) {
    && spec.jobManager.ports.rpc.Some? && spec.jobManager.ports.blob.Some?
    && spec.jobManager.ports.query.Some? && spec.jobManager.ports.ui.Some?
    && spec.taskManager.ports.rpc.Some?
    && (spec.jobManager.memoryOffHeapRatio.Some? && spec.taskManager.memoryLimit > 0 ==>
          spec.taskManager.memoryOffHeapRatio.Some?)
  }

  /** A positive heap size under `key`, nothing otherwise. */
  function HeapEntry(key: string, limit: int, offHeapMin: Option<int>, ratio: int): map<string, string> {
    var megabytes := HeapMegabytes(limit, if offHeapMin.Some? then offHeapMin.value else 0, ratio);
    if limit > 0 && megabytes > 0 then map[key := Decimal(megabytes) + "m"] else map[]
  }

  function HeapProperties(spec: ClusterSpec): map<string, string>
    requires PropertiesSafe(spec)
  {
    var jm, tm := spec.jobManager, spec.taskManager;
    if jm.memoryOffHeapRatio.None? then map[]
    else
      HeapEntry("jobmanager.heap.size", jm.memoryLimit, jm.memoryOffHeapMin, jm.memoryOffHeapRatio.value)
      + if tm.memoryLimit > 0
        then HeapEntry("taskmanager.heap.size", tm.memoryLimit, tm.memoryOffHeapMin, tm.memoryOffHeapRatio.value)
        else map[]
  }

  function OperatorProperties(clusterName: string, spec: ClusterSpec): map<string, string>
    requires PropertiesSafe(spec)
  {
    map[
      "jobmanager.rpc.address" := clusterName + "-jobmanager",
      "jobmanager.rpc.port" := Decimal(spec.jobManager.ports.rpc.value),
      "blob.server.port" := Decimal(spec.jobManager.ports.blob.value),
      "query.server.port" := Decimal(spec.jobManager.ports.query.value),
      "rest.port" := Decimal(spec.jobManager.ports.ui.value),
      "taskmanager.rpc.port" := Decimal(spec.taskManager.ports.rpc.value)
    ] + HeapProperties(spec)
  }

  function Properties(clusterName: string, spec: ClusterSpec): map<string, string>
    requires PropertiesSafe(spec)
  {
    Overlay(OperatorProperties(clusterName, spec), spec.flinkProperties)
  }

  lemma KeysDiffer()
    ensures |{"jobmanager.rpc.address", "jobmanager.rpc.port", "blob.server.port", "query.server.port", "rest.port",
              "taskmanager.rpc.port"}| == 6
    ensures "jobmanager.heap.size" !in SYSTEM_KEYS && "taskmanager.heap.size" !in SYSTEM_KEYS
  {
    assert |"jobmanager.rpc.address"| == 22 && |"jobmanager.rpc.port"| == 19 && |"blob.server.port"| == 16;
    assert |"query.server.port"| == 17 && |"rest.port"| == 9 && |"taskmanager.rpc.port"| == 20;
    assert |"jobmanager.heap.size"| == 20 && |"taskmanager.heap.size"| == 21;
  }

  lemma HeapHasNoSystemKey(spec: ClusterSpec, k: string)
    requires PropertiesSafe(spec) && k in SYSTEM_KEYS
    ensures k !in HeapProperties(spec)
  {
    KeysDiffer();
  }

  /** Whatever the user sets, the five system keys show the deployment; any other key shows the user's
      value if the user gave one. */
  lemma SystemKeysWin(clusterName: string, spec: ClusterSpec, k: string)
    requires PropertiesSafe(spec)
    ensures var props := Properties(clusterName, spec);
            var ports := spec.jobManager.ports;
            && (k == "jobmanager.rpc.address" ==> k in props && props[k] == clusterName + "-jobmanager")
            && (k == "jobmanager.rpc.port" ==> k in props && props[k] == Decimal(ports.rpc.value))
            && (k == "blob.server.port" ==> k in props && props[k] == Decimal(ports.blob.value))
            && (k == "query.server.port" ==> k in props && props[k] == Decimal(ports.query.value))
            && (k == "rest.port" ==> k in props && props[k] == Decimal(ports.ui.value))
            && (k in spec.flinkProperties && k != "jobmanager.rpc.address" && k != "jobmanager.rpc.port"
                && k != "blob.server.port" && k != "query.server.port" && k != "rest.port" ==>
                  k in props && props[k] == spec.flinkProperties[k])
  {
    KeysDiffer();
    if k in SYSTEM_KEYS {
      HeapHasNoSystemKey(spec, k);
      assert k !in spec.flinkProperties - SYSTEM_KEYS;
    }
  }

  /** A heap size is shown if there is a memory limit and some of it is left for the heap. */
  predicate HeapShown(props: map<string, string>, k: string, limit: int, offHeapMin: Option<int>, ratio: Option<int>) {
    if ratio.None? || limit <= 0 then k !in props
    else
      var h := HeapMegabytes(limit, if offHeapMin.Some? then offHeapMin.value else 0, ratio.value);
      if h > 0 then k in props && props[k] == Decimal(h) + "m" else k !in props
  }

  lemma HeapKeysDiffer()
    ensures "jobmanager.heap.size" != "taskmanager.heap.size" && "jobmanager.heap.size" != "taskmanager.rpc.port"
    ensures "taskmanager.heap.size" != "taskmanager.rpc.port" && "taskmanager.rpc.port" !in SYSTEM_KEYS
  {
    assert |"jobmanager.heap.size"| == 20 && |"taskmanager.heap.size"| == 21;
    assert "jobmanager.heap.size"[0] == 'j' && "taskmanager.rpc.port"[0] == 't';
    assert "jobmanager.rpc.address"[0] != 't' && "jobmanager.rpc.port"[0] != 't' && "blob.server.port"[0] != 't';
    assert "query.server.port"[0] != 't' && "rest.port"[0] != 't' && |"taskmanager.rpc.port"| == 20;
  }

  lemma HeapPropertiesAre(spec: ClusterSpec, k: string)
    requires PropertiesSafe(spec)
    ensures var jm, tm, props := spec.jobManager, spec.taskManager, HeapProperties(spec);
            && HeapShown(props, "jobmanager.heap.size", jm.memoryLimit, jm.memoryOffHeapMin, jm.memoryOffHeapRatio)
            && HeapShown(props, "taskmanager.heap.size", tm.memoryLimit, tm.memoryOffHeapMin,
                         if jm.memoryOffHeapRatio.Some? then tm.memoryOffHeapRatio else None)
            && (k in props ==> k == "jobmanager.heap.size" || k == "taskmanager.heap.size")
  {
    HeapKeysDiffer();
  }

  /** Beside the system keys and the user's own there are only the TaskManager's RPC port and the two heap
      sizes, and a user may set those too. */
  lemma OtherKeysAre(clusterName: string, spec: ClusterSpec, k: string)
    requires PropertiesSafe(spec) && k !in SYSTEM_KEYS && k !in spec.flinkProperties
    ensures var jm, tm, props := spec.jobManager, spec.taskManager, Properties(clusterName, spec);
            && (k == "taskmanager.rpc.port" ==> k in props && props[k] == Decimal(tm.ports.rpc.value))
            && (k == "jobmanager.heap.size" ==>
                  HeapShown(props, k, jm.memoryLimit, jm.memoryOffHeapMin, jm.memoryOffHeapRatio))
            && (k == "taskmanager.heap.size" ==>
                  HeapShown(props, k, tm.memoryLimit, tm.memoryOffHeapMin,
                            if jm.memoryOffHeapRatio.Some? then tm.memoryOffHeapRatio else None))
            && (k in props ==>
                  k == "taskmanager.rpc.port" || k == "jobmanager.heap.size" || k == "taskmanager.heap.size")
  {
    HeapPropertiesAre(spec, k);
    HeapKeysDiffer();
    assert k !in spec.flinkProperties - SYSTEM_KEYS;
    OperatorKeysAre(clusterName, spec, k);
  }

  lemma OperatorKeysAre(clusterName: string, spec: ClusterSpec, k: string)
    requires PropertiesSafe(spec) && k !in SYSTEM_KEYS
    ensures var props, heap := OperatorProperties(clusterName, spec), HeapProperties(spec);
            && (k in heap ==> k in props && props[k] == heap[k])
            && (k !in heap && k == "taskmanager.rpc.port" ==>
                  k in props && props[k] == Decimal(spec.taskManager.ports.rpc.value))
            && (k !in heap && k != "taskmanager.rpc.port" ==> k !in props)
  {
  }

  /******* String order *******/

  /** Lexicographic order by character. */
  predicate Less(a: string, b: string) {
    b != "" && (a == "" || a[0] < b[0] || (a[0] == b[0] && Less(a[1..], b[1..])))
  }

  /** The texts agree up to `i`, where the first ends or has the smaller character. */
  predicate LessAt(a: string, b: string, i: nat) {
    i <= |a| && i < |b| && a[..i] == b[..i] && (i == |a| || a[i] < b[i])
  }

  lemma {:induction false} LessFound(a: string, b: string) returns (i: nat)
    requires Less(a, b)
    ensures LessAt(a, b, i)
  {
    if a == "" || a[0] < b[0] {
      i := 0;
    } else {
      i := LessFound(a[1..], b[1..]);
      assert a[..i + 1] == [a[0]] + a[1..][..i] == [b[0]] + b[1..][..i] == b[..i + 1];
      i := i + 1;
    }
  }

  lemma {:induction false} FoundLess(a: string, b: string, i: nat)
    requires LessAt(a, b, i)
    ensures Less(a, b)
  {
    if i > 0 {
      assert a[0] == a[..i][0] == b[..i][0] == b[0];
      assert a[1..][..i - 1] == a[..i][1..] == b[..i][1..] == b[1..][..i - 1];
      FoundLess(a[1..], b[1..], i - 1);
    }
  }

  lemma LessIff(a: string, b: string)
    ensures Less(a, b) <==> exists i: nat :: LessAt(a, b, i)
  {
    if Less(a, b) {
      var i := LessFound(a, b);
    }
    if i: nat :| LessAt(a, b, i) {
      FoundLess(a, b, i);
    }
  }

  lemma {:induction false} LessTotal(a: string, b: string)
    ensures Less(a, b) || a == b || Less(b, a)
  {
    if a != "" && b != "" && a[0] == b[0] {
      LessTotal(a[1..], b[1..]);
      assert a == [a[0]] + a[1..] && b == [b[0]] + b[1..];
    }
  }

  lemma {:induction false} LessTransitive(a: string, b: string, c: string)
    requires Less(a, b) && Less(b, c)
    ensures Less(a, c)
  {
    if a != "" && a[0] == b[0] == c[0] {
      LessTransitive(a[1..], b[1..], c[1..]);
    }
  }

  lemma {:induction false} LessIrreflexive(a: string)
    ensures !Less(a, a)
  {
    if a != "" {
      LessIrreflexive(a[1..]);
    }
  }

  predicate Sorted(keys: seq<string>) {
    forall i, j :: 0 <= i < j < |keys| ==> Less(keys[i], keys[j])
  }

  function ToSet(keys: seq<string>): set<string> {
    set k | k in keys
  }

  /******* Sorting *******/

  function Insert(k: string, keys: seq<string>): seq<string> {
    if keys == [] then [k]
    else if Less(k, keys[0]) then [k] + keys
    else [keys[0]] + Insert(k, keys[1..])
  }

  lemma {:induction false} InsertSorts(k: string, keys: seq<string>)
    requires Sorted(keys) && k !in keys
    ensures Sorted(Insert(k, keys)) && ToSet(Insert(k, keys)) == ToSet(keys) + {k}
  {
    if keys != [] {
      var head, tail := keys[0], keys[1..];
      assert keys == [head] + tail;
      if Less(k, head) {
        forall j | 0 <= j < |keys|
          ensures Less(k, keys[j])
        {
          if j > 0 {
            LessTransitive(k, head, keys[j]);
          }
        }
      } else {
        LessTotal(k, head);
        InsertSorts(k, tail);
        var rest := Insert(k, tail);
        forall j | 0 <= j < |rest|
          ensures Less(head, rest[j])
        {
          assert rest[j] in ToSet(rest);
        }
        assert Insert(k, keys) == [head] + rest;
        assert ToSet([head] + rest) == {head} + ToSet(rest);
        assert ToSet(keys) == {head} + ToSet(tail);
      }
    }
  }

  /** The keys of a map in ascending order. */
  ghost function SortedKeys(keys: set<string>): (s: seq<string>)
    ensures Sorted(s) && ToSet(s) == keys
  {
    if keys == {} then []
    else
      var k :| k in keys;
      var rest := SortedKeys(keys - {k});
      assert k !in ToSet(rest);
      InsertSorts(k, rest);
      Insert(k, rest)
  }

  /** A set has one ascending order only. */
  lemma {:induction false} SortedUnique(s: seq<string>, t: seq<string>)
    requires Sorted(s) && Sorted(t) && ToSet(s) == ToSet(t)
    ensures s == t
  {
    FirstInSet(s);
    FirstInSet(t);
    if s != [] {
      HeadsAgree(s, t);
      TailSet(s);
      TailSet(t);
      SortedUnique(s[1..], t[1..]);
      assert s == [s[0]] + s[1..] && t == [t[0]] + t[1..];
    }
  }

  lemma FirstInSet(s: seq<string>)
    ensures s != [] ==> s[0] in ToSet(s)
  {
  }

  lemma HeadsAgree(s: seq<string>, t: seq<string>)
    requires Sorted(s) && Sorted(t) && s != [] && t != [] && s[0] in t && t[0] in s
    ensures s[0] == t[0]
  {
    var i :| 0 <= i < |t| && t[i] == s[0];
    var j :| 0 <= j < |s| && s[j] == t[0];
    if i > 0 && j > 0 {
      LessTransitive(s[0], s[j], s[0]);
      LessIrreflexive(s[0]);
    }
  }

  lemma TailSet(s: seq<string>)
    requires Sorted(s) && s != []
    ensures ToSet(s[1..]) == ToSet(s) - {s[0]}
  {
    assert s == [s[0]] + s[1..];
    forall i | 1 <= i < |s|
      ensures s[i] != s[0]
    {
      LessIrreflexive(s[0]);
    }
  }

  /******* Rendering *******/

  function Line(key: string, value: string): string {
    key + ": " + value + "\n"
  }

  function Lines(keys: seq<string>, properties: map<string, string>): string
    requires ToSet(keys) <= properties.Keys
  {
    if keys == [] then ""
    else
      var last := keys[|keys| - 1];
      assert last in ToSet(keys) && ToSet(keys[..|keys| - 1]) <= ToSet(keys);
      Lines(keys[..|keys| - 1], properties) + Line(last, properties[last])
  }

  /** The text of a property map: each key once, in ascending order. */
  ghost function ConfText(properties: map<string, string>): string {
    Lines(SortedKeys(properties.Keys), properties)
  }

  predicate Distinct(keys: seq<string>) {
    forall i, j :: 0 <= i < j < |keys| ==> keys[i] != keys[j]
  }

  /** sort.Strings on keys that differ. */
  method SortStrings(keys: seq<string>) returns (sorted: seq<string>)
    requires Distinct(keys)
    ensures Sorted(sorted) && ToSet(sorted) == ToSet(keys)
  {
    sorted := [];
    for i := 0 to |keys|
      invariant Sorted(sorted) && ToSet(sorted) == ToSet(keys[..i])
    {
      assert keys[i] !in ToSet(keys[..i]);
      InsertSorts(keys[i], sorted);
      assert keys[..i + 1] == keys[..i] + [keys[i]];
      sorted := Insert(keys[i], sorted);
    }
    assert keys[..|keys|] == keys;
  }

  /** The keys of a map in whatever order the map is walked. */
  method CollectKeys(properties: map<string, string>) returns (keys: seq<string>)
    ensures Distinct(keys) && ToSet(keys) == properties.Keys
  {
    keys := [];
    var rest := properties.Keys;
    while rest != {}
      invariant rest <= properties.Keys
      invariant Distinct(keys) && ToSet(keys) == properties.Keys - rest
      decreases rest
    {
      var k :| k in rest;
      assert k !in ToSet(keys);
      assert ToSet(keys + [k]) == ToSet(keys) + {k};
      keys := keys + [k];
      rest := rest - {k};
    }
  }

  /** getFlinkProperties: sorts the keys and writes a line for each. The text does not depend on the
      order in which the map is walked. */
  method GetFlinkProperties(properties: map<string, string>) returns (text: string)
    ensures text == ConfText(properties)
  {
    var keys := CollectKeys(properties);
    keys := SortStrings(keys);
    SortedUnique(keys, SortedKeys(properties.Keys));
    text := "";
    for i := 0 to |keys|
      invariant ToSet(keys[..i]) <= properties.Keys
      invariant text == Lines(keys[..i], properties)
    {
      assert keys[i] in ToSet(keys);
      assert keys[..i + 1][..i] == keys[..i];
      assert ToSet(keys[..i + 1]) <= ToSet(keys);
      text := text + Line(keys[i], properties[keys[i]]);
    }
    assert keys[..|keys|] == keys;
  }

  /******* Reading it back *******/

  function Find(s: string, c: char): (i: nat)
    ensures i <= |s|
    ensures i < |s| ==> s[i] == c
  {
    if s == "" || s[0] == c then 0 else 1 + Find(s[1..], c)
  }

  lemma {:induction false} FindFirst(a: string, c: char, b: string)
    requires c !in a
    ensures Find(a + [c] + b, c) == |a|
  {
    if a == "" {
      assert a + [c] + b == [c] + b;
    } else {
      assert a[0] in a;
      assert (a + [c] + b)[1..] == a[1..] + [c] + b;
      FindFirst(a[1..], c, b);
    }
  }

  /** Splits a text into lines and each line at its first colon. */
  function Read(text: string): seq<(string, string)>
    decreases |text|
  {
    var colon := Find(text, ':');
    if |text| < colon + 2 then []
    else
      var rest := text[colon + 2..];
      var end := Find(rest, '\n');
      if end == |rest| then [] else [(text[..colon], rest[..end])] + Read(rest[end + 1..])
  }

  /** Maps whose text can be read back: no colon in a key, no line break in a value. */
  ghost predicate Readable(properties: map<string, string>) {
    forall k <- properties.Keys :: ':' !in k && '\n' !in properties[k]
  }

  lemma ReadLine(key: string, value: string, rest: string)
    requires ':' !in key && '\n' !in value
    ensures Read(Line(key, value) + rest) == [(key, value)] + Read(rest)
  {
    var text := Line(key, value) + rest;
    var back := value + ['\n'] + rest;
    LineParts(key, value, rest);
    assert Find(text, ':') == |key| by {
      FindFirst(key, ':', " " + back);
    }
    FindFirst(value, '\n', rest);
    assert back[..|value|] == value && back[|value| + 1..] == rest;
  }

  lemma LineParts(key: string, value: string, rest: string)
    ensures var text, back := Line(key, value) + rest, value + ['\n'] + rest;
            text == key + [':'] + (" " + back) && text[..|key|] == key && text[|key| + 2..] == back
  {
    var back := value + ['\n'] + rest;
    assert Line(key, value) + rest == key + [':'] + (" " + back);
  }

  function Pairs(keys: seq<string>, properties: map<string, string>): seq<(string, string)>
    requires ToSet(keys) <= properties.Keys
  {
    seq(|keys|, i requires 0 <= i < |keys| => assert keys[i] in ToSet(keys); (keys[i], properties[keys[i]]))
  }

  lemma {:induction false} ReadLines(keys: seq<string>, properties: map<string, string>, rest: string)
    requires ToSet(keys) <= properties.Keys && Readable(properties)
    ensures Read(Lines(keys, properties) + rest) == Pairs(keys, properties) + Read(rest)
  {
    if keys == [] {
      assert Lines(keys, properties) + rest == rest;
    } else {
      var front, last := keys[..|keys| - 1], keys[|keys| - 1];
      assert last in ToSet(keys) && ToSet(front) <= ToSet(keys);
      var line := Line(last, properties[last]);
      ReadLines(front, properties, line + rest);
      ReadLine(last, properties[last], rest);
      PairsOfFront(keys, properties);
      ReadOn(Lines(front, properties), line, rest, Pairs(front, properties), (last, properties[last]));
    }
  }

  lemma ReadOn(lines: string, line: string, rest: string, pairs: seq<(string, string)>, pair: (string, string))
    requires Read(lines + (line + rest)) == pairs + Read(line + rest)
    requires Read(line + rest) == [pair] + Read(rest)
    ensures Read(lines + line + rest) == pairs + [pair] + Read(rest)
  {
    Associative(lines, line, rest);
    Associative(pairs, [pair], Read(rest));
  }

  lemma Associative<T>(a: seq<T>, b: seq<T>, c: seq<T>)
    ensures a + b + c == a + (b + c)
  {
  }

  lemma PairsOfFront(keys: seq<string>, properties: map<string, string>)
    requires keys != [] && ToSet(keys) <= properties.Keys
    ensures ToSet(keys[..|keys| - 1]) <= properties.Keys && keys[|keys| - 1] in properties
    ensures Pairs(keys, properties)
         == Pairs(keys[..|keys| - 1], properties) + [(keys[|keys| - 1], properties[keys[|keys| - 1]])]
  {
    assert keys[|keys| - 1] in ToSet(keys) && ToSet(keys[..|keys| - 1]) <= ToSet(keys);
  }

  /** Reading the rendered text gives every property of the map, in key order, and nothing else. */
  lemma ReadsBack(properties: map<string, string>)
    requires Readable(properties)
    ensures Read(ConfText(properties)) == Pairs(SortedKeys(properties.Keys), properties)
  {
    var keys := SortedKeys(properties.Keys);
    ReadLines(keys, properties, "");
    assert ConfText(properties) + "" == ConfText(properties);
    assert Read("") == [];
  }

  lemma EqualPairs(ps: seq<string>, p: map<string, string>, qs: seq<string>, q: map<string, string>)
    requires ToSet(ps) <= p.Keys && ToSet(qs) <= q.Keys && Pairs(ps, p) == Pairs(qs, q)
    ensures ps == qs
    ensures forall i :: 0 <= i < |ps| ==> ps[i] in p && ps[i] in q && p[ps[i]] == q[ps[i]]
  {
    assert |ps| == |Pairs(ps, p)| == |qs|;
    forall i | 0 <= i < |ps|
      ensures ps[i] == qs[i] && ps[i] in p && ps[i] in q && p[ps[i]] == q[ps[i]]
    {
      assert ps[i] in ToSet(ps) && qs[i] in ToSet(qs);
      assert Pairs(ps, p)[i] == Pairs(qs, q)[i];
    }
  }

  lemma EqualMaps(keys: seq<string>, p: map<string, string>, q: map<string, string>)
    requires p.Keys == ToSet(keys) == q.Keys
    requires forall i :: 0 <= i < |keys| ==> keys[i] in p && keys[i] in q && p[keys[i]] == q[keys[i]]
    ensures p == q
  {
    forall k | k in p.Keys
      ensures p[k] == q[k]
    {
      assert k in ToSet(keys);
      var i :| 0 <= i < |keys| && keys[i] == k;
    }
  }

  /** Different maps have different texts. */
  lemma RenderingInjective(p: map<string, string>, q: map<string, string>)
    requires Readable(p) && Readable(q) && ConfText(p) == ConfText(q)
    ensures p == q
  {
    ReadsBack(p);
    ReadsBack(q);
    EqualPairs(SortedKeys(p.Keys), p, SortedKeys(q.Keys), q);
    EqualMaps(SortedKeys(p.Keys), p, q);
  }
}
