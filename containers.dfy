/** The containers the main initializer fills: configuration key maps and the DLL list.
    What they do with a new entry is outside the model; each insertion is a call
    answered by a code, and an insertion that does not fail binds its key. */
module ContainersLib {
  import opened Wrappers
  import opened ErrorCodes
  import opened Collaborators

  /** A default value of a configuration key (MsvDefaultValue). */
  datatype DefaultValue = BoolDefault(b: bool) | TextDefault(text: string) | NumberDefault(number: nat)

  /** A passive configuration key: its group, its name in that group, its default. */
  datatype ConfigKey = ConfigKey(group: string, name: string, defaultValue: DefaultValue)

  /** `new (std::nothrow) MsvDefaultValue(v)`: allocation may fail. */
  method NewDefault(v: DefaultValue) returns (d: Option<DefaultValue>)
    ensures d.Some? ==> d.value == v
  {
    var ok :| true;
    d := if ok then Some(v) else None;
  }

  /** MsvConfigKeyMapBase: configuration key ids mapped to their data. */
  class KeyMap<V> {
    const env: Environment
    const test: FailureTest
    var entries: map<int, V>

    constructor (env: Environment, test: FailureTest)
      ensures this.env == env && this.test == test && entries == map[]
    {
      this.env, this.test := env, test;
      entries := map[];
    }

    method InsertKeyData(key: int, value: V) returns (r: ErrorCode)
      modifies this`entries, env
      ensures env.log == old(env.log) + [Call(InsertKey(key), r)]
      ensures !IsFailed(test, r) ==> entries == old(entries)[key := value]
      ensures IsFailed(test, r) ==> entries == old(entries)
    {
      r := env.Invoke(InsertKey(key));
      if !IsFailed(test, r) {
        entries := entries[key := value];
      }
    }
  }

  /** MsvDllList: DLL object ids mapped to the library file that exports them. */
  class DllList {
    const env: Environment
    const test: FailureTest
    var entries: map<string, string>

    constructor (env: Environment, test: FailureTest)
      ensures this.env == env && this.test == test && entries == map[]
    {
      this.env, this.test := env, test;
      entries := map[];
    }

    method AddDll(objectId: string, path: string) returns (r: ErrorCode)
      modifies this`entries, env
      ensures env.log == old(env.log) + [Call(Request.AddDll(objectId), r)]
      ensures !IsFailed(test, r) ==> entries == old(entries)[objectId := path]
      ensures IsFailed(test, r) ==> entries == old(entries)
    {
      r := env.Invoke(Request.AddDll(objectId));
      if !IsFailed(test, r) {
        entries := entries[objectId := path];
      }
    }
  }
}
