/**
  * The runtime values of src/main/kotlin/LoxValue.kt: the constants `nil`, `true` and `false`,
  * strings, numbers, functions, classes and instances; their truthiness and display text;
  * the conversions from Booleans and literal tokens; binding a method to an instance; calling
  * a class; and reading and writing an instance's properties.
  *
  * Classes and instances are Kotlin objects compared by identity, so they are Dafny classes;
  * an instance's field map is updated in place. The `Scope` a function closes over and the
  * `call` lambda that runs its body are not part of this model: a scope keeps only its
  * builtins (an opaque identifier), its enclosing scope and the values defined in it, and a
  * call is an opaque identifier.
  */
module Values {
  import opened Util
  import Tokens

  /** Identifies a function body's `call` lambda, which this model does not run. */
  type CallId = nat

  /** Identifies a scope's builtins table, which this model does not look into. */
  type BuiltinsId = nat

  /** An environment frame: the values defined in it, in order, and the frame around it. */
  class Scope {
    const builtins: BuiltinsId
    const enclosing: Scope?
    var values: seq<LoxValue>

    /** `Scope(builtins, enclosing)`: a frame with nothing defined in it yet. */
    constructor (builtins: BuiltinsId, enclosing: Scope?)
      ensures this.builtins == builtins && this.enclosing == enclosing && values == []
    {
      this.builtins := builtins;
      this.enclosing := enclosing;
      values := [];
    }

    /** `define(value)`: the value takes the next slot of this frame. */
    method Define(value: LoxValue)
      modifies this
      ensures values == old(values) + [value]
    {
      values := values + [value];
    }
  }

  /** `LoxValue.Function`: a name, an arity, the scope it closes over and its body. */
  datatype Callable = Callable(name: string, arity: int, closure: Scope, call: CallId)
  {
    /** This is `f` bound to `instance`: the same function, closing over a frame holding the instance. */
    predicate Bound(f: Callable, instance: LoxInstance)
      reads closure
    {
      && name == f.name && arity == f.arity && call == f.call
      && closure.enclosing == f.closure && closure.builtins == f.closure.builtins
      && closure.values == [Instance(instance)]
    }
  }

  /** `LoxValue`. */
  datatype LoxValue =
    | Nil
    | True
    | False
    | LoxString(text: string)
    | Number(number: real)
    | Function(fn: Callable)
    | Class(klass: LoxClass)
    | Instance(instance: LoxInstance)

  /** `isTruthy`: only `Nil` and `False` are falsy. */
  predicate IsTruthy(v: LoxValue) {
    !(v.Nil? || v.False?)
  }

  /**
    * `asString`: strings between double quotes, numbers as `fmt` shows them, functions as
    * `fn <name>`, a class as its name and an instance as its class's name followed by
    * ` instance`.
    */
  function AsString(v: LoxValue, fmt: real -> string): string {
    match v
    case Nil => "nil"
    case True => "true"
    case False => "false"
    case LoxString(text) => "\"" + text + "\""
    case Number(x) => fmt(x)
    case Function(f) => "fn <" + f.name + ">"
    case Class(c) => c.name
    case Instance(i) => i.klass.name + " instance"
  }

  /** `from(Boolean)`. */
  function FromBoolean(b: bool): (v: LoxValue)
    ensures v == True || v == False
    ensures IsTruthy(v) == b
  {
    if b then True else False
  }

  /** `from(literal)`: a keyword literal becomes its constant, a number or string token its value. */
  function FromLiteral(lit: Tokens.Literal): (v: LoxValue)
    ensures v.Nil? || v.True? || v.False? || v.LoxString? || v.Number?
    ensures lit.LoxString? <==> v.LoxString?
    ensures lit.LoxNumber? <==> v.Number?
  {
    match lit
    case KwLit(k) => (if k == Tokens.KeywordLiteral.False then False else if k == Tokens.KeywordLiteral.Nil then Nil else True)
    case LoxNumber(x) => Number(x)
    case LoxString(s) => LoxString(s)
  }

  /**
    * `Function.bind(instance)`: the same name, arity and body, closing over a new scope whose
    * enclosing scope is the old closure and which defines the instance.
    */
  method Bind(f: Callable, instance: LoxInstance) returns (bound: Callable)
    ensures fresh(bound.closure) && bound.Bound(f, instance)
  {
    var scope := new Scope(f.closure.builtins, f.closure);
    scope.Define(Instance(instance));
    bound := Callable(f.name, f.arity, scope, f.call);
  }

  /** A call this model leaves to the interpreter: the function and its arguments. */
  datatype Invocation = Invocation(fn: Callable, arguments: seq<LoxValue>)

  /** `LoxValue.LoxClass`. */
  class LoxClass {
    const name: string
    const instanceMethods: map<string, Callable>
    const classMethods: map<string, Callable>

    constructor (name: string, instanceMethods: map<string, Callable>, classMethods: map<string, Callable>)
      ensures this.name == name && this.instanceMethods == instanceMethods && this.classMethods == classMethods
    {
      this.name := name;
      this.instanceMethods := instanceMethods;
      this.classMethods := classMethods;
    }

    /** `arity`: the arity of `init`, or 0 for a class without one. */
    function Arity(): (n: int)
      ensures "init" in instanceMethods ==> n == instanceMethods["init"].arity
      ensures "init" !in instanceMethods ==> n == 0
    {
      if "init" in instanceMethods then instanceMethods["init"].arity else 0
    }

    /**
      * `invoke(interpreter, arguments)`: a new instance of this class with no fields. When the
      * class has an `init`, it is bound to the new instance and called with the arguments; that
      * call is returned in `initialiser` rather than run, and its result is discarded.
      */
    method Invoke(arguments: seq<LoxValue>) returns (instance: LoxInstance, initialiser: Option<Invocation>)
      ensures fresh(instance) && instance.klass == this && instance.fields == map[]
      ensures initialiser.Some? <==> "init" in instanceMethods
      ensures initialiser.Some? ==>
        var bound := initialiser.value.fn;
        && initialiser.value.arguments == arguments
        && fresh(bound.closure)
        && bound.arity == Arity()
        && bound.Bound(instanceMethods["init"], instance)
    {
      instance := new LoxInstance(this, map[]);
      if "init" in instanceMethods {
        var bound := Bind(instanceMethods["init"], instance);
        initialiser := Some(Invocation(bound, arguments));
      } else {
        initialiser := None;
      }
    }
  }

  /** What looking up a property finds: a field's value, a method of the class, or nothing. */
  datatype Property = Field(value: LoxValue) | Method(callable: Callable) | Missing

  /** The property lookup `get` performs, on the fields and the class's instance methods. */
  function Lookup(fields: map<string, LoxValue>, methods: map<string, Callable>, name: string): (p: Property)
    ensures p.Field? <==> name in fields
    ensures p.Field? ==> p.value == fields[name]
    ensures p.Method? <==> name !in fields && name in methods
    ensures p.Method? ==> p.callable == methods[name]
  {
    if name in fields then Field(fields[name])
    else if name in methods then Method(methods[name])
    else Missing
  }

  /** `LoxValue.LoxInstance`: its class and its field map, which `set` updates in place. */
  class LoxInstance {
    const klass: LoxClass
    var fields: map<string, LoxValue>

    constructor (klass: LoxClass, fields: map<string, LoxValue>)
      ensures this.klass == klass && this.fields == fields
    {
      this.klass := klass;
      this.fields := fields;
    }

    /** The property `get(name)` finds. */
    function Property(name: string): Property
      reads this
    {
      Lookup(fields, klass.instanceMethods, name)
    }

    /**
      * `get(name)`: a field of that name; otherwise the class's instance method of that name
      * bound to this instance; otherwise nothing. Nothing about the instance changes.
      */
    method Get(name: string) returns (r: Option<LoxValue>)
      ensures Property(name).Field? ==> r == Some(Property(name).value)
      ensures Property(name).Method? ==>
        && r.Some? && r.value.Function?
        && fresh(r.value.fn.closure)
        && r.value.fn.Bound(Property(name).callable, this)
      ensures Property(name).Missing? ==> r == None
    {
      if name in fields {
        return Some(fields[name]);
      }
      if name in klass.instanceMethods {
        var bound := Bind(klass.instanceMethods[name], this);
        return Some(Function(bound));
      }
      return None;
    }

    /** `set(name, value)`: inserts or overwrites that one field. */
    method Set(name: string, value: LoxValue)
      modifies this
      ensures fields == old(fields)[name := value]
    {
      fields := fields[name := value];
    }
  }
}

/**
  * How the values of src/main/kotlin/LoxValue.kt agree with the literals the evaluator of
  * module Interpreting works on, and what property lookup promises.
  */
module ValueFacts {
  import Tokens
  import Interpreting
  import opened Values

  /**
    * A literal's value shows the text `stringify` gives the literal and has the same
    * truthiness, so evaluating on literals loses nothing the interpreter shows.
    */
  lemma FromLiteralAgrees(lit: Tokens.Literal, fmt: real -> string)
    ensures AsString(FromLiteral(lit), fmt) == Interpreting.Stringify(lit, fmt)
    ensures IsTruthy(FromLiteral(lit)) == Interpreting.IsTruthy(lit)
  {
  }

  /** `from(Boolean)` is the value of the literal the evaluator's `loxBoolean` gives. */
  lemma FromBooleanAgrees(b: bool)
    ensures FromBoolean(b) == FromLiteral(Interpreting.LoxBoolean(b))
  {
  }

  /** `from(literal)` loses nothing: distinct literals give distinct values. */
  lemma FromLiteralInjective(a: Tokens.Literal, b: Tokens.Literal)
    ensures FromLiteral(a) == FromLiteral(b) <==> a == b
  {
  }

  /** After `set(name, value)`, `get(name)` finds that value, even where a method has the name. */
  lemma SetThenGet(fields: map<string, LoxValue>, methods: map<string, Callable>, name: string, value: LoxValue)
    ensures Lookup(fields[name := value], methods, name) == Field(value)
  {
  }

  /** `set(name, value)` leaves what `get` finds for every other name unchanged. */
  lemma SetLeavesOthers(fields: map<string, LoxValue>, methods: map<string, Callable>, name: string, value: LoxValue, other: string)
    requires other != name
    ensures Lookup(fields[name := value], methods, other) == Lookup(fields, methods, other)
  {
  }
}
