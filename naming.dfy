/** Naming conventions for generated mutation and action names. */
module Naming {

  datatype Prefixes = Prefixes(update: string, load: string, loading: string, done: string, trigger: string)

  /** The prefixes every new convention object starts with. */
  const DefaultPrefixes: Prefixes := Prefixes("update", "load", "loading", "done", "trigger")

  datatype Style = SnakeCase | CamelCase

  /** A convention object: its style and its (changeable) prefixes. */
  datatype Naming = Naming(style: Style, prefixes: Prefixes)

  /** ASCII upper-casing of one character. */
  function UpperChar(c: char): char
  {
    if 'a' <= c <= 'z' then (c as int - 'a' as int + 'A' as int) as char else c
  }

  /** `capitalize`: the first character upper-cased, the rest untouched. */
  function Capitalize(word: string): (r: string)
    ensures |r| == |word|
    ensures word != [] ==> r[0] == UpperChar(word[0]) && r[1..] == word[1..]
  {
    if word == [] then [] else [UpperChar(word[0])] + word[1..]
  }

  /** A prefix joined to a name under the convention's style. */
  function Join(n: Naming, prefix: string, name: string): string
  {
    match n.style
    case SnakeCase => prefix + "_" + name
    case CamelCase => prefix + Capitalize(name)
  }

  function Update(n: Naming, name: string): string { Join(n, n.prefixes.update, name) }
  function Load(n: Naming, name: string): string { Join(n, n.prefixes.load, name) }
  function Loading(n: Naming, name: string): string { Join(n, n.prefixes.loading, name) }
  function Trigger(n: Naming, name: string): string { Join(n, n.prefixes.trigger, name) }
  /** `done` is joined to the loading name, not to the bare name. */
  function Done(n: Naming, name: string): string { Join(n, n.prefixes.done, Loading(n, name)) }

  /** The factories `SnakeCase()` and `CamelCase()`. */
  function NewSnakeCase(): (n: Naming)
    ensures n.style == SnakeCase && n.prefixes == DefaultPrefixes
  {
    Naming(SnakeCase, DefaultPrefixes)
  }

  function NewCamelCase(): (n: Naming)
    ensures n.style == CamelCase && n.prefixes == DefaultPrefixes
  {
    Naming(CamelCase, DefaultPrefixes)
  }

  /** Snake case: every name is the current prefix, `_`, then the name; and
      `done` is the done prefix, `_`, then the loading name. Whatever the
      prefixes are set to. */
  lemma SnakeCaseNames(p: Prefixes, name: string)
    ensures var n := Naming(SnakeCase, p);
            && Update(n, name) == p.update + "_" + name
            && Load(n, name) == p.load + "_" + name
            && Loading(n, name) == p.loading + "_" + name
            && Trigger(n, name) == p.trigger + "_" + name
            && Done(n, name) == p.done + "_" + p.loading + "_" + name
  {
  }

  lemma SnakeCaseDefaults()
    ensures var n := NewSnakeCase();
            && Update(n, "hello") == "update_hello"
            && Load(n, "hello") == "load_hello"
            && Loading(n, "hello") == "loading_hello"
            && Done(n, "hello") == "done_loading_hello"
            && Trigger(n, "hello") == "trigger_hello"
  {
  }

  /** For a fixed prefix, snake-case names are injective in the name. */
  lemma SnakeCaseInjective(n: Naming, prefix: string, a: string, b: string)
    requires n.style == SnakeCase
    ensures Join(n, prefix, a) == Join(n, prefix, b) <==> a == b
  {
    if Join(n, prefix, a) == Join(n, prefix, b) {
      var k := |prefix + "_"|;
      assert a == Join(n, prefix, a)[k..];
      assert b == Join(n, prefix, b)[k..];
    }
  }

  lemma CamelCaseDefaults()
    ensures var n := NewCamelCase();
            && Update(n, "hello") == "updateHello"
            && Load(n, "hello") == "loadHello"
            && Loading(n, "hello") == "loadingHello"
            && Trigger(n, "hello") == "triggerHello"
  {
    var n := NewCamelCase();
    var h := Capitalize("hello");
    assert h == "Hello" by {
      assert UpperChar('h') == 'H';
      assert h == ['H'] + "ello";
    }
    assert Update(n, "hello") == "update" + h;
    assert Load(n, "hello") == "load" + h;
    assert Loading(n, "hello") == "loading" + h;
    assert Trigger(n, "hello") == "trigger" + h;
  }

  lemma CamelCaseDoneDefault()
    ensures Done(NewCamelCase(), "hello") == "doneLoadingHello"
  {
    var n := NewCamelCase();
    CamelCaseDefaults();
    var w := Loading(n, "hello");
    assert w[0] == 'l' && UpperChar('l') == 'L';
    assert w[1..] == "oadingHello";
    assert Done(n, "hello") == "done" + ['L'] + w[1..];
  }

  /** Camel-case names of two names coincide exactly when the names differ at
      most in the case of their first letter: `foo` and `Foo` collide. */
  lemma CamelCaseCollisions(n: Naming, prefix: string, a: string, b: string)
    requires n.style == CamelCase
    ensures Join(n, prefix, a) == Join(n, prefix, b) <==>
            (a == b == []) || (a != [] && b != [] && UpperChar(a[0]) == UpperChar(b[0]) && a[1..] == b[1..])
  {
    var k := |prefix|;
    if Join(n, prefix, a) == Join(n, prefix, b) {
      assert Capitalize(a) == Join(n, prefix, a)[k..];
      assert Capitalize(b) == Join(n, prefix, b)[k..];
      if a != [] && b != [] {
        assert Capitalize(a)[1..] == a[1..];
      }
    }
    if a != [] && b != [] && UpperChar(a[0]) == UpperChar(b[0]) && a[1..] == b[1..] {
      assert Capitalize(a) == Capitalize(b);
    }
  }

  lemma CamelCaseFooCollidesWithFoo()
    ensures Update(NewCamelCase(), "foo") == Update(NewCamelCase(), "Foo") == "updateFoo"
  {
  }
}
