/**
 * The `bind`, `bindadd` and `unbind` console commands: they validate the
 * argument count, the key name and the command name, then update the
 * key-to-commands table of the configuration in place. Log messages are
 * returned as an outcome value.
 */
module BindCommands {
  import opened Wrappers
  import opened DotNet

  // ---- ordinal string order and the sorted command list ----

  /** Lexicographic order on character codes; a prefix comes first. */
  predicate LexLe(a: string, b: string)
    decreases |a|
  {
    if a == [] then true
    else if b == [] then false
    else if a[0] != b[0] then a[0] < b[0]
    else LexLe(a[1..], b[1..])
  }

  lemma {:induction false} LexLeTotal(a: string, b: string)
    ensures LexLe(a, b) || LexLe(b, a)
    decreases |a|
  {
    if a != [] && b != [] && a[0] == b[0] {
      LexLeTotal(a[1..], b[1..]);
    }
  }

  lemma {:induction false} LexLeTransitive(a: string, b: string, c: string)
    requires LexLe(a, b) && LexLe(b, c)
    ensures LexLe(a, c)
    decreases |a|
  {
    if a != [] && b != [] && c != [] && a[0] == b[0] && b[0] == c[0] {
      LexLeTransitive(a[1..], b[1..], c[1..]);
    }
  }

  predicate Sorted(s: seq<string>) {
    forall i, j :: 0 <= i < j < |s| ==> LexLe(s[i], s[j])
  }

  /** Inserts `x` before the first element it does not follow. */
  function Insert(x: string, s: seq<string>): (r: seq<string>)
    ensures |r| == |s| + 1
    ensures multiset(r) == multiset(s) + multiset{x}
  {
    if s == [] then [x]
    else if LexLe(x, s[0]) then [x] + s
    else
      assert s == [s[0]] + s[1..];
      [s[0]] + Insert(x, s[1..])
  }

  lemma {:induction false} InsertSorted(x: string, s: seq<string>)
    requires Sorted(s)
    ensures Sorted(Insert(x, s))
    decreases |s|
  {
    if s == [] {
    } else if LexLe(x, s[0]) {
      var r := [x] + s;
      forall i, j | 0 <= i < j < |r|
        ensures LexLe(r[i], r[j])
      {
        if i == 0 {
          if j > 1 {
            LexLeTransitive(x, s[0], s[j - 1]);
          }
        }
      }
    } else {
      var tail := Insert(x, s[1..]);
      InsertSorted(x, s[1..]);
      LexLeTotal(x, s[0]);
      forall k | 0 <= k < |tail|
        ensures LexLe(s[0], tail[k])
      {
        assert tail[k] in multiset(s[1..]) + multiset{x};
        if tail[k] != x {
          assert tail[k] in multiset(s[1..]);
          var m :| 0 <= m < |s[1..]| && s[1..][m] == tail[k];
          assert s[1 + m] == tail[k];
        }
      }
      var r := [s[0]] + tail;
      assert r == Insert(x, s);
      forall i, j | 0 <= i < j < |r|
        ensures LexLe(r[i], r[j])
      {
        if i == 0 {
          assert r[j] == tail[j - 1];
        } else {
          assert r[i] == tail[i - 1] && r[j] == tail[j - 1];
        }
      }
    }
  }

  /** `OrderBy(x => x)` over strings: an insertion sort. */
  function Sort(s: seq<string>): (r: seq<string>)
    ensures |r| == |s|
    ensures multiset(r) == multiset(s)
  {
    if s == [] then []
    else
      assert s == [s[0]] + s[1..];
      Insert(s[0], Sort(s[1..]))
  }

  lemma {:induction false} SortSorted(s: seq<string>)
    ensures Sorted(Sort(s))
    decreases |s|
  {
    if s != [] {
      SortSorted(s[1..]);
      InsertSorted(s[0], Sort(s[1..]));
    }
  }

  /**
   * `GetAvailableInputCommands`: the names of the input-command constants,
   * in order. The names are a parameter: the source reads them by reflection.
   */
  function AvailableInputCommands(fieldNames: seq<string>): (r: seq<string>)
    ensures multiset(r) == multiset(fieldNames)
    ensures Sorted(r)
  {
    SortSorted(fieldNames);
    Sort(fieldNames)
  }

  // ---- validators ----

  /** `CheckAvailableInputCommands`: some listed command equals `command`, ignoring case. */
  function CheckAvailableInputCommands(inputCommands: seq<string>, command: string): (ok: bool)
    ensures ok <==> exists i :: 0 <= i < |inputCommands| && EqualsIgnoreCase(inputCommands[i], command)
  {
    if inputCommands == [] then false
    else if EqualsIgnoreCase(inputCommands[0], command) then true
    else
      var ok := CheckAvailableInputCommands(inputCommands[1..], command);
      assert ok ==> exists i :: 0 <= i < |inputCommands| && EqualsIgnoreCase(inputCommands[i], command) by {
        if ok {
          var i :| 0 <= i < |inputCommands[1..]| && EqualsIgnoreCase(inputCommands[1..][i], command);
          assert inputCommands[i + 1] == inputCommands[1..][i];
        }
      }
      assert (exists i :: 0 <= i < |inputCommands| && EqualsIgnoreCase(inputCommands[i], command)) ==> ok by {
        if i :| 0 <= i < |inputCommands| && EqualsIgnoreCase(inputCommands[i], command) {
          assert i != 0;
          assert inputCommands[1..][i - 1] == inputCommands[i];
        }
      }
      ok
  }

  /** Checking against the sorted list is checking against the constants themselves. */
  lemma CheckIgnoresOrder(fieldNames: seq<string>, command: string)
    ensures CheckAvailableInputCommands(AvailableInputCommands(fieldNames), command)
        <==> exists f :: f in fieldNames && EqualsIgnoreCase(f, command)
  {
    var sorted := AvailableInputCommands(fieldNames);
    if CheckAvailableInputCommands(sorted, command) {
      var i :| 0 <= i < |sorted| && EqualsIgnoreCase(sorted[i], command);
      assert sorted[i] in multiset(fieldNames);
    }
    if f :| f in fieldNames && EqualsIgnoreCase(f, command) {
      assert f in multiset(sorted);
      var i :| 0 <= i < |sorted| && sorted[i] == f;
    }
  }

  /**
   * `GetInputKey`: `Enum.TryParse` of the key enum, ignoring case, with the
   * enum's names as a parameter; the result is the declared name.
   */
  function GetInputKey(keyNames: seq<string>, key: string): (r: Option<string>)
    ensures r.Some? <==> exists i :: 0 <= i < |keyNames| && EqualsIgnoreCase(keyNames[i], key)
    ensures r.Some? ==> r.value in keyNames && EqualsIgnoreCase(r.value, key)
  {
    if keyNames == [] then None
    else if EqualsIgnoreCase(keyNames[0], key) then Some(keyNames[0])
    else
      var r := GetInputKey(keyNames[1..], key);
      assert r.Some? ==> exists i :: 0 <= i < |keyNames| && EqualsIgnoreCase(keyNames[i], key) by {
        if r.Some? {
          var i :| 0 <= i < |keyNames[1..]| && EqualsIgnoreCase(keyNames[1..][i], key);
          assert keyNames[i + 1] == keyNames[1..][i];
        }
      }
      assert (exists i :: 0 <= i < |keyNames| && EqualsIgnoreCase(keyNames[i], key)) ==> r.Some? by {
        if i :| 0 <= i < |keyNames| && EqualsIgnoreCase(keyNames[i], key) {
          assert i != 0;
          assert keyNames[1..][i - 1] == keyNames[i];
        }
      }
      r
  }

  /** Key names are matched without regard to letter case. */
  lemma GetInputKeyIgnoresCase(keyNames: seq<string>, key: string)
    ensures GetInputKey(keyNames, ToLower(key)) == GetInputKey(keyNames, key)
    ensures GetInputKey(keyNames, ToUpper(key)) == GetInputKey(keyNames, key)
    decreases |keyNames|
  {
    ToLowerIdempotent(key);
    ToLowerOfUpper(key);
    if keyNames != [] {
      GetInputKeyIgnoresCase(keyNames[1..], key);
    }
  }

  // ---- the key-binding table ----

  /**
   * What a command reports: the listing of the bindings, one of its errors,
   * or the change it made.
   */
  datatype Outcome =
    | ListedBindings
    | ArgumentCountError
    | InvalidKey
    | InvalidCommand
    | NoCommands
    | MissingCommand
    | Bound
    | Unbound

  /** Every occurrence of `command` removed. */
  function Without(commands: seq<string>, command: string): (r: seq<string>)
    ensures command !in r
    ensures forall c :: c in r <==> c in commands && c != command
    ensures |r| <= |commands|
  {
    if commands == [] then []
    else if commands[0] == command then Without(commands[1..], command)
    else [commands[0]] + Without(commands[1..], command)
  }

  /**
   * The configuration's key-to-commands table. Its implementation is not
   * part of this model: a key's commands are a sequence, `Add` appends,
   * and a key whose last command is removed has no entry.
   */
  class KeyBindings {
    var mapping: map<string, seq<string>>

    ghost predicate Valid()
      reads this
    {
      forall k :: k in mapping ==> mapping[k] != []
    }

    constructor()
      ensures mapping == map[] && Valid()
    {
      mapping := map[];
    }

    /** `Add(key, command)`: the command appended to the key's commands. */
    method Add(key: string, command: string)
      requires Valid()
      modifies this
      ensures Valid()
      ensures mapping == old(mapping)[key := (if key in old(mapping) then old(mapping)[key] else []) + [command]]
    {
      var existing := if key in mapping then mapping[key] else [];
      mapping := mapping[key := existing + [command]];
    }

    /** `Remove(key)`: every command of the key removed; false when it had none. */
    method Remove(key: string) returns (removed: bool)
      requires Valid()
      modifies this
      ensures Valid()
      ensures removed <==> key in old(mapping)
      ensures mapping == old(mapping) - {key}
    {
      removed := key in mapping;
      mapping := mapping - {key};
    }

    /** `Remove(key, command)`: the pair removed; false when the key did not have the command. */
    method RemovePair(key: string, command: string) returns (removed: bool)
      requires Valid()
      modifies this
      ensures Valid()
      ensures removed <==> key in old(mapping) && command in old(mapping)[key]
      ensures !removed ==> mapping == old(mapping)
      ensures removed ==> mapping == RemovedPair(old(mapping), key, command)
    {
      if key in mapping && command in mapping[key] {
        mapping := RemovedPair(mapping, key, command);
        removed := true;
      } else {
        removed := false;
      }
    }
  }

  /** The table with `command` taken out of `key`'s commands, dropping the key if none remain. */
  function RemovedPair(m: map<string, seq<string>>, key: string, command: string): (r: map<string, seq<string>>)
    requires key in m
    ensures forall k :: k != key ==> (k in r <==> k in m) && (k in r ==> r[k] == m[k])
    ensures key in r ==> r[key] == Without(m[key], command)
    ensures key !in r <==> Without(m[key], command) == []
  {
    var rest := Without(m[key], command);
    if rest == [] then m - {key} else m[key := rest]
  }

  // ---- the commands, as specification functions ----

  /**
   * `ExecuteBind(args, removeExisting)` as written: the flag is not
   * consulted, so a successful bind always replaces the key's commands.
   */
  function Bind(m: map<string, seq<string>>, keyNames: seq<string>, fieldNames: seq<string>,
                args: seq<string>, removeExisting: bool): (r: (Outcome, map<string, seq<string>>))
    ensures r.0 != Bound ==> r.1 == m
    ensures |args| == 0 <==> r.0 == ListedBindings
    ensures |args| == 1 ==> r.0 == ArgumentCountError
  {
    if |args| == 0 then (ListedBindings, m)
    else if |args| < 2 then (ArgumentCountError, m)
    else
      var inputKey := GetInputKey(keyNames, args[0]);
      if inputKey.None? then (InvalidKey, m)
      else if !CheckAvailableInputCommands(AvailableInputCommands(fieldNames), args[1]) then (InvalidCommand, m)
      else (Bound, (m - {inputKey.value})[inputKey.value := [args[1]]])
  }

  /**
   * `UnbindCommand(args)`: with one argument every command of the key is
   * removed, with two only the named one.
   */
  function Unbind(m: map<string, seq<string>>, keyNames: seq<string>, fieldNames: seq<string>,
                  args: seq<string>): (r: (Outcome, map<string, seq<string>>))
    ensures r.0 !in {Unbound, NoCommands} ==> r.1 == m
    ensures |args| == 0 <==> r.0 == ListedBindings
  {
    if |args| == 0 then (ListedBindings, m)
    else
      var inputKey := GetInputKey(keyNames, args[0]);
      if inputKey.None? then (InvalidKey, m)
      else if |args| == 1 then
        (if inputKey.value in m then Unbound else NoCommands, m - {inputKey.value})
      else if !CheckAvailableInputCommands(AvailableInputCommands(fieldNames), args[1]) then (InvalidCommand, m)
      else if inputKey.value in m && args[1] in m[inputKey.value] then
        (Unbound, RemovedPair(m, inputKey.value, args[1]))
      else (MissingCommand, m)
  }

  /**
   * A bind succeeds exactly when the key name and the command name are
   * recognised, ignoring case; it then leaves the key with just the command
   * and every other key untouched.
   */
  lemma BindReplaces(m: map<string, seq<string>>, keyNames: seq<string>, fieldNames: seq<string>,
                     args: seq<string>, removeExisting: bool)
    requires |args| >= 2
    ensures Bind(m, keyNames, fieldNames, args, removeExisting).0 == Bound <==>
      (exists i :: 0 <= i < |keyNames| && EqualsIgnoreCase(keyNames[i], args[0]))
      && (exists f :: f in fieldNames && EqualsIgnoreCase(f, args[1]))
    ensures var (outcome, m') := Bind(m, keyNames, fieldNames, args, removeExisting);
      outcome == Bound ==>
        var key := GetInputKey(keyNames, args[0]).value;
        m'[key] == [args[1]] && forall k :: k != key ==> (k in m' <==> k in m) && (k in m' ==> m'[k] == m[k])
  {
    CheckIgnoresOrder(fieldNames, args[1]);
  }

  /** `bind` and `bindadd` have the same effect. */
  lemma BindAddIsBind(m: map<string, seq<string>>, keyNames: seq<string>, fieldNames: seq<string>, args: seq<string>)
    ensures Bind(m, keyNames, fieldNames, args, true) == Bind(m, keyNames, fieldNames, args, false)
  {
  }

  /**
   * `unbind <key>` removes all of the key's commands and reports NoCommands
   * exactly when it had none; `unbind <key> <command>` removes only that
   * command of that key.
   */
  lemma UnbindRemoves(m: map<string, seq<string>>, keyNames: seq<string>, fieldNames: seq<string>, args: seq<string>)
    requires |args| >= 1 && GetInputKey(keyNames, args[0]).Some?
    ensures var key := GetInputKey(keyNames, args[0]).value;
      var (outcome, m') := Unbind(m, keyNames, fieldNames, args);
      |args| == 1 ==> key !in m' && (outcome == NoCommands <==> key !in m) && m' == m - {key}
    ensures var key := GetInputKey(keyNames, args[0]).value;
      var (outcome, m') := Unbind(m, keyNames, fieldNames, args);
      |args| >= 2 && outcome == Unbound ==>
        key in m && args[1] in m[key]
        && (key in m' ==> m'[key] == Without(m[key], args[1]))
        && forall k :: k != key ==> (k in m' <==> k in m) && (k in m' ==> m'[k] == m[k])
    ensures var key := GetInputKey(keyNames, args[0]).value;
      |args| >= 2 && key in m && args[1] in m[key]
        && CheckAvailableInputCommands(AvailableInputCommands(fieldNames), args[1]) ==>
      Unbind(m, keyNames, fieldNames, args).0 == Unbound
  {
  }

  /** The command help of `bindadd`: the command is added and the key keeps its other commands. */
  function IntendedBind(m: map<string, seq<string>>, keyNames: seq<string>, fieldNames: seq<string>,
                        args: seq<string>, removeExisting: bool): (Outcome, map<string, seq<string>>)
  {
    if |args| == 0 then (ListedBindings, m)
    else if |args| < 2 then (ArgumentCountError, m)
    else
      var inputKey := GetInputKey(keyNames, args[0]);
      if inputKey.None? then (InvalidKey, m)
      else if !CheckAvailableInputCommands(AvailableInputCommands(fieldNames), args[1]) then (InvalidCommand, m)
      else if removeExisting then (Bound, (m - {inputKey.value})[inputKey.value := [args[1]]])
      else
        var existing := if inputKey.value in m then m[inputKey.value] else [];
        (Bound, m[inputKey.value := existing + [args[1]]])
  }

  /** With the flag honoured, `bindadd` keeps the key's commands and appends the new one; `bind` is unchanged. */
  lemma IntendedBindAddKeeps(m: map<string, seq<string>>, keyNames: seq<string>, fieldNames: seq<string>, args: seq<string>)
    ensures IntendedBind(m, keyNames, fieldNames, args, true) == Bind(m, keyNames, fieldNames, args, true)
    ensures var (outcome, m') := IntendedBind(m, keyNames, fieldNames, args, false);
      outcome == Bound ==>
        var key := GetInputKey(keyNames, args[0]).value;
        key in m' && (key in m ==> m[key] <= m'[key]) && m'[key][|m'[key]| - 1] == args[1]
        && |m'[key]| == (if key in m then |m[key]| else 0) + 1
  {
  }

  /** In the example below, the key and the command both validate. */
  lemma ExampleValidates()
    ensures GetInputKey(["W"], "w") == Some("W")
    ensures CheckAvailableInputCommands(AvailableInputCommands(["Forward", "Jump"]), "jump")
  {
    assert EqualsIgnoreCase("W", "w") by {
      assert ToLower("W") == "w" == ToLower("w");
    }
    var fields := ["Forward", "Jump"];
    assert EqualsIgnoreCase(fields[1], "jump") by {
      assert ToLower("Jump") == "jump" == ToLower("jump");
    }
    CheckIgnoresOrder(fields, "jump");
  }

  /** As written, `bindadd` drops a command the key already had. */
  lemma BindAddDropsExisting()
    ensures Bind(map["W" := ["Forward"]], ["W"], ["Forward", "Jump"], ["w", "jump"], false)
         == (Bound, map["W" := ["jump"]])
  {
    var m := map["W" := ["Forward"]];
    ExampleValidates();
    assert (m - {"W"})["W" := ["jump"]] == map["W" := ["jump"]];
  }

  /** On the same input, `bindadd` with the flag honoured keeps the existing command. */
  lemma IntendedBindAddExample()
    ensures IntendedBind(map["W" := ["Forward"]], ["W"], ["Forward", "Jump"], ["w", "jump"], false)
         == (Bound, map["W" := ["Forward", "jump"]])
  {
    var m := map["W" := ["Forward"]];
    ExampleValidates();
    assert m["W"] + ["jump"] == ["Forward", "jump"];
    assert m["W" := ["Forward", "jump"]] == map["W" := ["Forward", "jump"]];
  }

  // ---- the client ----

  /** The console-command side of the client: the key table and the names it validates against. */
  class Client {
    /** `m_config.Keys`. */
    const keys: KeyBindings
    /** The names of the key enum, in declaration order. */
    const keyNames: seq<string>
    /** The names of the input-command constants. */
    const inputFieldNames: seq<string>

    ghost predicate Valid()
      reads this, keys
    {
      keys.Valid()
    }

    constructor(keyNames: seq<string>, inputFieldNames: seq<string>)
      ensures Valid() && fresh(keys) && keys.mapping == map[]
      ensures this.keyNames == keyNames && this.inputFieldNames == inputFieldNames
    {
      keys := new KeyBindings();
      this.keyNames := keyNames;
      this.inputFieldNames := inputFieldNames;
    }

    /** `ExecuteBind`: validate the arguments, then replace the key's commands with the command. */
    method ExecuteBind(args: seq<string>, removeExisting: bool) returns (outcome: Outcome)
      requires Valid()
      modifies keys
      ensures Valid()
      ensures (outcome, keys.mapping) == Bind(old(keys.mapping), keyNames, inputFieldNames, args, removeExisting)
    {
      if |args| == 0 {
        return ListedBindings;
      }
      if |args| < 2 {
        return ArgumentCountError;
      }
      var key := args[0];
      var command := args[1];
      var inputKey := GetInputKey(keyNames, key);
      if inputKey.None? {
        return InvalidKey;
      }
      var inputCommands := AvailableInputCommands(inputFieldNames);
      if !CheckAvailableInputCommands(inputCommands, command) {
        return InvalidCommand;
      }
      var _ := keys.Remove(inputKey.value);
      keys.Add(inputKey.value, command);
      assert [] + [command] == [command];
      return Bound;
    }

    /** The `bind` command. */
    method BindCommand(args: seq<string>) returns (outcome: Outcome)
      requires Valid()
      modifies keys
      ensures Valid()
      ensures (outcome, keys.mapping) == Bind(old(keys.mapping), keyNames, inputFieldNames, args, true)
    {
      outcome := ExecuteBind(args, true);
    }

    /** The `bindadd` command. */
    method BindAddCommand(args: seq<string>) returns (outcome: Outcome)
      requires Valid()
      modifies keys
      ensures Valid()
      ensures (outcome, keys.mapping) == Bind(old(keys.mapping), keyNames, inputFieldNames, args, false)
    {
      outcome := ExecuteBind(args, false);
    }

    /** `UnbindCommand`: remove all of a key's commands, or one named command. */
    method UnbindCommand(args: seq<string>) returns (outcome: Outcome)
      requires Valid()
      modifies keys
      ensures Valid()
      ensures (outcome, keys.mapping) == Unbind(old(keys.mapping), keyNames, inputFieldNames, args)
    {
      if |args| == 0 {
        return ListedBindings;
      }
      var inputKey := GetInputKey(keyNames, args[0]);
      if inputKey.None? {
        return InvalidKey;
      }
      if |args| == 1 {
        var removed := keys.Remove(inputKey.value);
        return if removed then Unbound else NoCommands;
      }
      var command := args[1];
      var inputCommands := AvailableInputCommands(inputFieldNames);
      if !CheckAvailableInputCommands(inputCommands, command) {
        return InvalidCommand;
      }
      var removed := keys.RemovePair(inputKey.value, command);
      return if removed then Unbound else MissingCommand;
    }
  }
}
