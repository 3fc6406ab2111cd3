/** The host services the add-in consumes, reduced to what it reads from them:
    a file-existence oracle, the environment's program-files directory, bitness
    and working directory, and a read-only snapshot of the local-machine registry. */
module Collaborators {
  import opened Outcomes
  import opened Paths

  /** `IFileSystem.Exist`: whether a file is present. A missing file is `false`,
      never an exception. */
  datatype FileSystem = FileSystem(exist: FilePath -> bool)

  /** `ICakeEnvironment`, limited to the three reads the add-in makes. */
  datatype CakeEnvironment = CakeEnvironment(
    programFilesX86: DirectoryPath,
    is64BitOperativeSystem: bool,
    workingDirectory: DirectoryPath)

  /** A registry value: `GetValue(name) as string` yields a string only for string values. */
  datatype RegistryValue = StringValue(text: string) | OtherValue

  /** A registry key: its sub-keys in enumeration order and its named values.
      A sub-key whose `key` is `None` is listed by `GetSubKeyNames` but cannot
      be opened (it vanished, or access is denied). */
  datatype RegistryKey = RegistryKey(subKeys: seq<SubKey>, values: map<string, RegistryValue>)

  datatype SubKey = SubKey(name: string, key: Option<RegistryKey>)

  /** `IRegistry`: only `LocalMachine` is read. */
  datatype Registry = Registry(localMachine: RegistryKey)

  /** `GetSubKeyNames`: the sub-key names in enumeration order. */
  function SubKeyNames(k: RegistryKey): (names: seq<string>)
    ensures |names| == |k.subKeys|
    ensures forall i :: 0 <= i < |names| ==> names[i] == k.subKeys[i].name
  {
    seq(|k.subKeys|, i requires 0 <= i < |k.subKeys| => k.subKeys[i].name)
  }

  /** `subKeys[i]` is the first listed sub-key called `name`. */
  predicate FirstNamed(subKeys: seq<SubKey>, name: string, i: int) {
    && 0 <= i < |subKeys|
    && subKeys[i].name == name
    && forall j :: 0 <= j < i ==> subKeys[j].name != name
  }

  /** `OpenKey(name)` on one level: the first listed sub-key of that name, or
      `None` when no such sub-key is listed or it cannot be opened. */
  function OpenKey(k: RegistryKey, name: string): (r: Option<RegistryKey>)
    ensures forall i :: FirstNamed(k.subKeys, name, i) ==> r == k.subKeys[i].key
    ensures r.Some? ==> exists i :: FirstNamed(k.subKeys, name, i) && k.subKeys[i].key == r
    ensures (forall i :: 0 <= i < |k.subKeys| ==> k.subKeys[i].name != name) ==> r.None?
  {
    OpenKeyFrom(k.subKeys, name)
  }

  function OpenKeyFrom(subKeys: seq<SubKey>, name: string): (r: Option<RegistryKey>)
    ensures forall i :: FirstNamed(subKeys, name, i) ==> r == subKeys[i].key
    ensures r.Some? ==> exists i :: FirstNamed(subKeys, name, i) && subKeys[i].key == r
    ensures (forall i :: 0 <= i < |subKeys| ==> subKeys[i].name != name) ==> r.None?
  {
    if |subKeys| == 0 then None
    else if subKeys[0].name == name then
      assert FirstNamed(subKeys, name, 0);
      subKeys[0].key
    else
      var rest := subKeys[1..];
      assert forall i :: FirstNamed(subKeys, name, i) ==> FirstNamed(rest, name, i - 1);
      assert forall i :: FirstNamed(rest, name, i) ==> FirstNamed(subKeys, name, i + 1);
      OpenKeyFrom(rest, name)
  }

  /** `OpenKey(@"A\B\C")`: opens a backslash-separated path one segment at a time. */
  function OpenPath(k: RegistryKey, segments: seq<string>): (r: Option<RegistryKey>)
    ensures |segments| == 0 ==> r == Some(k)
    ensures |segments| == 1 ==> r == OpenKey(k, segments[0])
    decreases |segments|
  {
    if |segments| == 0 then Some(k)
    else match OpenKey(k, segments[0])
      case None => None
      case Some(child) => OpenPath(child, segments[1..])
  }

  /** Opening a path in one call is opening its first part and then the rest
      from there; a missing key on the way opens nothing. */
  lemma {:induction false} OpenPathAppend(k: RegistryKey, a: seq<string>, b: seq<string>)
    ensures OpenPath(k, a + b) == match OpenPath(k, a)
      case None => None
      case Some(middle) => OpenPath(middle, b)
    decreases |a|
  {
    if |a| > 0 {
      assert (a + b)[0] == a[0];
      assert (a + b)[1..] == a[1..] + b;
      match OpenKey(k, a[0])
      case None =>
        assert OpenPath(k, a).None?;
      case Some(child) =>
        assert OpenPath(k, a + b) == OpenPath(child, a[1..] + b);
        assert OpenPath(k, a) == OpenPath(child, a[1..]);
        OpenPathAppend(child, a[1..], b);
    } else {
      assert a + b == b;
    }
  }

  /** A key with one sub-key opens that sub-key by its name. */
  lemma OpenSingleEntry(name: string, child: RegistryKey)
    ensures OpenKey(RegistryKey([SubKey(name, Some(child))], map[]), name) == Some(child)
  {
    assert FirstNamed([SubKey(name, Some(child))], name, 0);
  }

  /** A key that leads to `leaf` along `path`, one single-entry level per segment. */
  function Nested(path: seq<string>, leaf: RegistryKey): (k: RegistryKey)
    ensures OpenPath(k, path) == Some(leaf)
    decreases |path|
  {
    if |path| == 0 then leaf
    else
      var child := Nested(path[1..], leaf);
      OpenSingleEntry(path[0], child);
      RegistryKey([SubKey(path[0], Some(child))], map[])
  }

  /** `GetValue(name) as string`: `None` when the value is missing or not a string. */
  function StringValueOf(k: RegistryKey, name: string): (r: Option<string>)
    ensures r.Some? <==> name in k.values && k.values[name].StringValue?
    ensures r.Some? ==> k.values[name] == StringValue(r.value)
  {
    if name in k.values && k.values[name].StringValue? then Some(k.values[name].text) else None
  }

  /** `char.IsWhiteSpace`: the Unicode space, line and paragraph separators, the
      control characters U+0009 to U+000D, and U+0085. */
  predicate IsWhiteSpace(c: char) {
    || ('\U{0009}' <= c <= '\U{000D}')
    || c == ' ' || c == '\U{0085}' || c == '\U{00A0}' || c == '\U{1680}'
    || ('\U{2000}' <= c <= '\U{200A}')
    || c == '\U{2028}' || c == '\U{2029}' || c == '\U{202F}' || c == '\U{205F}'
    || c == '\U{3000}'
  }

  /** `string.IsNullOrWhiteSpace`. */
  predicate IsNullOrWhiteSpace(s: Option<string>) {
    s.None? || forall i :: 0 <= i < |s.value| ==> IsWhiteSpace(s.value[i])
  }

  /** `string.IsNullOrEmpty`. */
  predicate IsNullOrEmpty(s: Option<string>) {
    s.None? || s.value == ""
  }
}
