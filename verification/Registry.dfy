/** The function registry of `src/registry.rs`: one flat table keyed by pointer
    strings that answers as a table keyed by token lists. */
module Functions {
  import opened Common
  import opened JsonPointer

  type Function = nat

  /** `canonical_key`: the pointer itself once its escapes check out, with one
      spelling for the root. */
  function CanonicalKey(p: Text): Option<Text> {
    if AddressesRoot(p) then Some(ROOT)
    else if Validates(p) then Some(p)
    else None
  }

  /** A registration path may omit its leading slash. */
  function Normalized(path: Text): Text {
    if path != [] && path[0] == SLASH then path else [SLASH] + path
  }

  /** Tokens a path registers under; `None` when the path is refused. */
  function RegisteredTokens(path: Text): Option<seq<Text>> {
    if AddressesRoot(Normalized(path)) then None else Parse(Normalized(path))
  }

  /** A path registers under the tokens it writes, with or without its leading slash;
      the root, which writes none, is never registered. */
  lemma RegistersWhatItWrites(path: Text, ts: seq<Text>)
    ensures RegisteredTokens(path) == Some(ts) <==>
      && path != [] && path != ROOT
      && (if path[0] == SLASH then Writes(path, ts) else Writes([SLASH] + path, ts))
  {
    ParsesTheGrammar(path, ts);
    ParsesTheGrammar([SLASH] + path, ts);
    if path != [] && path[0] != SLASH {
      assert ([SLASH] + path)[1] == path[0];
    }
  }

  /** What a string-keyed probe answers. */
  function Probe(state: map<Text, Function>, p: Text): Option<Function> {
    match CanonicalKey(p)
    case None => None
    case Some(key) => Get(state, key)
  }

  /** Probing with any pointer answers as looking its tokens up. */
  ghost predicate AnswersAs(state: map<Text, Function>, table: map<seq<Text>, Function>) {
    forall p: Text :: Probe(state, p)
      == match Parse(p) { case None => None case Some(ts) => Get(table, ts) }
  }

  /** Two pointers share a key exactly when they parse to the same tokens. */
  lemma SameKeyIffSameTokens(p: Text, q: Text)
    requires Parse(p).Some? && Parse(q).Some?
    ensures CanonicalKey(p).Some? && CanonicalKey(q).Some?
    ensures CanonicalKey(p) == CanonicalKey(q) <==> Parse(p) == Parse(q)
  {
    ValidatesIffParses(p);
    ValidatesIffParses(q);
    if Parse(p) == Parse(q) {
      ParseInjective(p, q);
    }
  }

  /** Registering keeps the string-keyed table a token-keyed one. */
  lemma RegistrationAnswersAs(
    state: map<Text, Function>, table: map<seq<Text>, Function>, path: Text, f: Function)
    requires AnswersAs(state, table) && RegisteredTokens(path).Some?
    ensures AnswersAs(state[Normalized(path) := f], table[RegisteredTokens(path).value := f])
  {
    var key := Normalized(path);
    var state', table' := state[key := f], table[RegisteredTokens(path).value := f];
    forall p: Text
      ensures Probe(state', p) == match Parse(p) { case None => None case Some(ts) => Get(table', ts) }
    {
      ValidatesIffParses(p);
      ValidatesIffParses(key);
      assert Probe(state, p) == match Parse(p) { case None => None case Some(ts) => Get(table, ts) };
      if Parse(p).Some? {
        SameKeyIffSameTokens(p, key);
      }
    }
  }

  datatype RegistryError = InvalidPointer(pointer: Text) | PathNotFound(path: Text)

  class Registry {
    var state: map<Text, Function>
    ghost var table: map<seq<Text>, Function>

    ghost predicate Valid()
      reads this
    {
      AnswersAs(state, table) && [] !in table
    }

    constructor ()
      ensures Valid() && table == map[]
    {
      state, table := map[], map[];
    }

    /** The last registration of a token list wins; the root and malformed
        pointers are refused. */
    method RegisterFunction(path: Text, f: Function) returns (r: Result<(), RegistryError>)
      requires Valid()
      modifies this
      ensures Valid()
      ensures r == if RegisteredTokens(path).Some? then Ok(()) else Err(InvalidPointer(path))
      ensures table == if r.Ok? then old(table)[RegisteredTokens(path).value := f] else old(table)
    {
      var normalized := Normalized(path);
      if AddressesRoot(normalized) {
        return Err(InvalidPointer(path));
      }
      ValidatesIffParses(normalized);
      var key := CanonicalKey(normalized);
      if key.None? {
        return Err(InvalidPointer(path));
      }
      RegistrationAnswersAs(state, table, path, f);
      RegistersWhatItWrites(path, RegisteredTokens(path).value);
      state := state[key.value := f];
      table := table[RegisteredTokens(path).value := f];
      r := Ok(());
    }

    method IsFunction(pointer: Text) returns (r: bool)
      requires Valid()
      ensures r <==> Parse(pointer).Some? && Parse(pointer).value in table
    {
      assert Probe(state, pointer)
        == match Parse(pointer) { case None => None case Some(ts) => Get(table, ts) };
      var key := CanonicalKey(pointer);
      r := key.Some? && key.value in state;
    }

    /** The function a call reaches, or the error it reports. */
    method Resolve(pointer: Text) returns (r: Result<Function, RegistryError>)
      requires Valid()
      ensures r == match Parse(pointer)
        case None => Err(InvalidPointer(pointer))
        case Some(ts) => if ts in table then Ok(table[ts]) else Err(PathNotFound(pointer))
    {
      ValidatesIffParses(pointer);
      assert Probe(state, pointer)
        == match Parse(pointer) { case None => None case Some(ts) => Get(table, ts) };
      var key := CanonicalKey(pointer);
      if key.None? {
        return Err(InvalidPointer(pointer));
      }
      if key.value !in state {
        return Err(PathNotFound(pointer));
      }
      r := Ok(state[key.value]);
    }
  }
}
