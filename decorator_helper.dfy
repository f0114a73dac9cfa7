/**
 * The decorator-synthesis rules of transforms/helpers/decorator-helper.js:
 * which decorator nodes a legacy Ember class or class member receives, in
 * which order and with which arguments.
 */
module DecoratorHelper {
  import opened Ast

  // ---------------------------------------------------------------------
  // withDecorators: attach a decorator list to a node, in place
  // ---------------------------------------------------------------------

  /** An output AST node (a class or a class member) that may carry decorators. */
  class Node<E> {
    /** `None` is a node with no `decorators` property at all. */
    var decorators: Option<seq<Decorator<E>>>

    constructor (decorators: Option<seq<Decorator<E>>>)
      ensures this.decorators == decorators
    {
      this.decorators := decorators;
    }
  }

  /**
   * Sets `to.decorators` to the given list when it is non-empty and leaves it
   * untouched otherwise; returns the same node. A node therefore never gains
   * an empty decorator list.
   */
  method WithDecorators<E>(to: Node<E>, decorators: seq<Decorator<E>> := []) returns (r: Node<E>)
    modifies to`decorators
    ensures r == to
    ensures |decorators| > 0 ==> to.decorators == Some(decorators)
    ensures |decorators| == 0 ==> to.decorators == old(to.decorators)
    ensures old(to.decorators) != Some([]) ==> to.decorators != Some([])
  {
    if |decorators| > 0 {
      to.decorators := Some(decorators);
    }
    r := to;
  }

  // ---------------------------------------------------------------------
  // createClassDecorator
  // ---------------------------------------------------------------------

  /**
   * The single call-style class decorator for a class-level property: the
   * elements of an array literal are spread as its arguments, any other value
   * is its only argument.
   */
  function ClassDecorator<E>(classDecoratorProp: ClassDecoratorProp<E>): (r: Decorator<E>)
    ensures r.Call? && r.callee == classDecoratorProp.name
    ensures classDecoratorProp.value.ArrayExpression? ==>
              |r.args| == |classDecoratorProp.value.elements| &&
              forall i :: 0 <= i < |r.args| ==> r.args[i] == classDecoratorProp.value.elements[i]
    ensures classDecoratorProp.value.SingleValue? ==>
              |r.args| == 1 && r.args[0] == classDecoratorProp.value.value
  {
    var decoratorArgs :=
      match classDecoratorProp.value
      case ArrayExpression(elements) => elements
      case SingleValue(value) => [value];
    Call(classDecoratorProp.name, decoratorArgs)
  }

  // ---------------------------------------------------------------------
  // createCallExpressionDecorators
  // ---------------------------------------------------------------------

  /** Resolves a relative `Array.prototype.slice` bound against a length. */
  function SliceBound(len: nat, bound: int): (k: nat)
    ensures k <= len
  {
    if bound < 0 then (if len + bound < 0 then 0 else len + bound)
    else if bound < len then bound else len
  }

  /** `s.slice(start, end)` with JavaScript's treatment of negative and oversized bounds. */
  function JsSlice<T>(s: seq<T>, start: int, end: int): seq<T>
  {
    var from, to := SliceBound(|s|, start), SliceBound(|s|, end);
    if from <= to then s[from..to] else []
  }

  /**
   * The arguments of the primary decorator: `callExprArgs.slice(0, -1)` when
   * the last argument is a non-literal (the getter function, which becomes the
   * member's body), `callExprArgs.slice(0)` otherwise.
   */
  function PrimaryArgs<E>(instanceProp: InstanceProp<E>): (r: seq<Expr<E>>)
    ensures !instanceProp.hasNonLiteralArg ==> r == instanceProp.callExprArgs
    ensures instanceProp.hasNonLiteralArg && |instanceProp.callExprArgs| > 0 ==>
              r + [instanceProp.callExprArgs[|instanceProp.callExprArgs| - 1]] == instanceProp.callExprArgs
    ensures instanceProp.hasNonLiteralArg && |instanceProp.callExprArgs| == 0 ==> r == []
  {
    var args := instanceProp.callExprArgs;
    if instanceProp.hasNonLiteralArg then JsSlice(args, 0, -1) else JsSlice(args, 0, |args|)
  }

  /**
   * The decorator for one chained modifier: call-style with the modifier's
   * arguments when it has any, identifier-style otherwise.
   *
   * The source builds the call form as
   * `j.decorator(j.callExpression(modifier.prop), modifier.args)`, handing the
   * arguments to `j.decorator` instead of to `j.callExpression`. The model
   * gives the evidently intended node `@prop(args...)`.
   */
  function ModifierDecorator<E>(modifier: Modifier<E>): (r: Decorator<E>)
    ensures r.Call? <==> |modifier.args| != 0
    ensures r.Call? ==> r.callee == modifier.prop && r.args == modifier.args
    ensures r.Ident? ==> r.name == modifier.prop
  {
    if |modifier.args| != 0 then Call(modifier.prop, modifier.args) else Ident(modifier.prop)
  }

  /**
   * The `reduce` over the modifiers: push one decorator per modifier onto the
   * accumulator, which stays a prefix of the result.
   */
  function PushModifiers<E>(decorators: seq<Decorator<E>>, modifiers: seq<Modifier<E>>): (r: seq<Decorator<E>>)
    ensures |r| == |decorators| + |modifiers|
    ensures r[..|decorators|] == decorators
    decreases |modifiers|
  {
    if modifiers == [] then decorators
    else
      var next := decorators + [ModifierDecorator(modifiers[0])];
      var r := PushModifiers(next, modifiers[1..]);
      assert r[..|decorators|] == r[..|next|][..|decorators|];
      r
  }

  /** Pushing the modifiers appends the decorator of modifier `i` at position `|decorators| + i`. */
  lemma {:induction false} PushModifiersAppends<E>(decorators: seq<Decorator<E>>, modifiers: seq<Modifier<E>>)
    ensures forall i :: 0 <= i < |modifiers| ==>
              PushModifiers(decorators, modifiers)[|decorators| + i] == ModifierDecorator(modifiers[i])
    decreases |modifiers|
  {
    if modifiers != [] {
      var next := decorators + [ModifierDecorator(modifiers[0])];
      PushModifiersAppends(next, modifiers[1..]);
      var r := PushModifiers(decorators, modifiers);
      assert r == PushModifiers(next, modifiers[1..]);
      assert r[..|next|] == next;
      forall i | 0 <= i < |modifiers|
        ensures r[|decorators| + i] == ModifierDecorator(modifiers[i])
      {
        if i == 0 {
          assert r[|decorators|] == r[..|next|][|decorators|];
        } else {
          assert modifiers[1..][i - 1] == modifiers[i];
          assert r[|next| + (i - 1)] == ModifierDecorator(modifiers[1..][i - 1]);
        }
      }
    }
  }

  /**
   * The decorators of a computed property or method: none at all for a
   * volatile read-only member, otherwise the primary call-style decorator
   * followed by one decorator per modifier.
   */
  function CallExpressionDecorators<E>(decoratorName: string, instanceProp: InstanceProp<E>): (r: seq<Decorator<E>>)
    ensures instanceProp.isVolatileReadOnly ==> r == []
    ensures !instanceProp.isVolatileReadOnly ==>
              && |r| == 1 + |instanceProp.modifiers|
              && r[0] == Call(decoratorName, PrimaryArgs(instanceProp))
              && forall i :: 0 <= i < |instanceProp.modifiers| ==>
                   r[i + 1] == ModifierDecorator(instanceProp.modifiers[i])
  {
    if instanceProp.isVolatileReadOnly then []
    else
      var primary := [Call(decoratorName, PrimaryArgs(instanceProp))];
      PushModifiersAppends(primary, instanceProp.modifiers);
      var r := PushModifiers(primary, instanceProp.modifiers);
      assert r[0] == r[..1][0];
      r
  }

  /** The `reduce` of the source as a loop that appends to an accumulator. */
  method CreateCallExpressionDecorators<E>(decoratorName: string, instanceProp: InstanceProp<E>)
    returns (decorators: seq<Decorator<E>>)
    ensures decorators == CallExpressionDecorators(decoratorName, instanceProp)
  {
    var decoratorArgs := PrimaryArgs(instanceProp);
    if instanceProp.isVolatileReadOnly {
      return [];
    }
    decorators := [Call(decoratorName, decoratorArgs)];
    var i := 0;
    while i < |instanceProp.modifiers|
      invariant 0 <= i <= |instanceProp.modifiers|
      invariant PushModifiers(decorators, instanceProp.modifiers[i..])
                == CallExpressionDecorators(decoratorName, instanceProp)
    {
      var modifier := instanceProp.modifiers[i];
      assert instanceProp.modifiers[i..][1..] == instanceProp.modifiers[i + 1..];
      if |modifier.args| != 0 {
        decorators := decorators + [Call(modifier.prop, modifier.args)];
      } else {
        decorators := decorators + [Ident(modifier.prop)];
      }
      i := i + 1;
    }
  }

  // ---------------------------------------------------------------------
  // createIdentifierDecorators
  // ---------------------------------------------------------------------

  /** Exactly one identifier-style decorator; the name defaults to `action`. */
  function IdentifierDecorators<E>(identifier: string := "action"): (r: seq<Decorator<E>>)
    ensures |r| == 1 && r[0].Ident? && r[0].name == identifier
  {
    [Ident(identifier)]
  }

  // ---------------------------------------------------------------------
  // createBindingDecorators
  // ---------------------------------------------------------------------

  /** `propList.map(prop => j.literal(prop))`. */
  function Literals<E>(names: seq<string>): (r: seq<Expr<E>>)
    ensures |r| == |names|
    ensures forall i :: 0 <= i < |names| ==> r[i] == Lit(names[i])
  {
    if names == [] then [] else [Lit(names[0])] + Literals(names[1..])
  }

  /** The strings of an argument list made only of literals; `None` if any argument is not a literal. */
  function LiteralTexts<E>(args: seq<Expr<E>>): Option<seq<string>>
  {
    if args == [] then Some([])
    else match (args[0], LiteralTexts(args[1..]))
      case (Lit(text), Some(rest)) => Some([text] + rest)
      case _ => None
  }

  /** The literal arguments of a binding decorator give back the property names, in order. */
  lemma {:induction false} LiteralsRoundTrip<E>(names: seq<string>)
    ensures LiteralTexts(Literals<E>(names)) == Some(names)
  {
    if names != [] {
      LiteralsRoundTrip<E>(names[1..]);
      assert Literals<E>(names)[0] == Lit(names[0]);
      assert Literals<E>(names)[1..] == Literals<E>(names[1..]);
      assert [names[0]] + names[1..] == names;
    }
  }

  /**
   * Exactly one decorator for a `className` or `attribute` binding: call-style
   * with one string literal per bound property when `propList` is present and
   * non-empty, identifier-style otherwise.
   */
  function BindingDecorators<E>(decoratorName: string, instanceProp: InstanceProp<E>): (r: seq<Decorator<E>>)
    ensures |r| == 1
    ensures r[0].Call? <==> instanceProp.propList.Some? && |instanceProp.propList.value| > 0
    ensures r[0].Call? ==>
              && r[0].callee == decoratorName
              && |r[0].args| == |instanceProp.propList.value|
              && forall i :: 0 <= i < |r[0].args| ==> r[0].args[i] == Lit(instanceProp.propList.value[i])
    ensures r[0].Ident? ==> r[0].name == decoratorName
  {
    var propList := instanceProp.propList;
    if propList.Some? && |propList.value| > 0 then
      [Call(decoratorName, Literals(propList.value))]
    else
      [Ident(decoratorName)]
  }

  // ---------------------------------------------------------------------
  // createInstancePropDecorators
  // ---------------------------------------------------------------------

  /** Names routed to the binding rule. */
  predicate IsBindingName(name: string) {
    name == "className" || name == "attribute"
  }

  /** Names routed to the identifier rule. `action` is not one of them. */
  predicate IsMarkerName(name: string) {
    name == "off" || name == "unobserves"
  }

  /**
   * The decorators one name of `decoratorNames` contributes: nothing exactly
   * when the name is silent, one decorator for a binding or marker name.
   */
  function DecoratorsFor<E>(decoratorName: string, instanceProp: InstanceProp<E>): (r: seq<Decorator<E>>)
    ensures r == [] <==> Silent(decoratorName, instanceProp)
    ensures IsBindingName(decoratorName) || IsMarkerName(decoratorName) ==> |r| == 1
  {
    if decoratorName == "" then []
    else if IsBindingName(decoratorName) then BindingDecorators(decoratorName, instanceProp)
    else if IsMarkerName(decoratorName) then IdentifierDecorators(decoratorName)
    else CallExpressionDecorators(decoratorName, instanceProp)
  }

  /**
   * The `reduce` over `decoratorNames`: concatenate each name's decorators onto
   * the accumulator. The result is the accumulator followed by the reference
   * concatenation `Flatten`.
   */
  function ConcatNames<E>(decorators: seq<Decorator<E>>, names: seq<string>, instanceProp: InstanceProp<E>)
    : (r: seq<Decorator<E>>)
    ensures r == decorators + Flatten(names, instanceProp)
    decreases |names|
  {
    if names == [] then decorators
    else
      var head := DecoratorsFor(names[0], instanceProp);
      assert decorators + head + Flatten(names[1..], instanceProp)
          == decorators + (head + Flatten(names[1..], instanceProp));
      ConcatNames(decorators + head, names[1..], instanceProp)
  }

  /**
   * All decorators of an instance property: the per-name outputs joined in the
   * order of the names, as many as the names contribute in total.
   */
  function InstancePropDecorators<E>(instanceProp: InstanceProp<E>): (r: seq<Decorator<E>>)
    ensures r == Flatten(instanceProp.decoratorNames, instanceProp)
    ensures |r| == TotalCount(instanceProp.decoratorNames, instanceProp)
  {
    FlattenLength(instanceProp.decoratorNames, instanceProp);
    ConcatNames([], instanceProp.decoratorNames, instanceProp)
  }

  /** Reference definition: the per-name outputs joined in the order of the names. */
  function Flatten<E>(names: seq<string>, instanceProp: InstanceProp<E>): seq<Decorator<E>>
  {
    if names == [] then [] else DecoratorsFor(names[0], instanceProp) + Flatten(names[1..], instanceProp)
  }

  /** The number of decorators each name contributes, summed over the names. */
  function TotalCount<E>(names: seq<string>, instanceProp: InstanceProp<E>): nat
  {
    if names == [] then 0 else |DecoratorsFor(names[0], instanceProp)| + TotalCount(names[1..], instanceProp)
  }

  /** The per-name outputs of consecutive name lists are joined in order. */
  lemma {:induction false} FlattenAppend<E>(names1: seq<string>, names2: seq<string>, instanceProp: InstanceProp<E>)
    ensures Flatten(names1 + names2, instanceProp) == Flatten(names1, instanceProp) + Flatten(names2, instanceProp)
  {
    if names1 != [] {
      assert (names1 + names2)[0] == names1[0];
      assert (names1 + names2)[1..] == names1[1..] + names2;
      FlattenAppend(names1[1..], names2, instanceProp);
    } else {
      assert names1 + names2 == names2;
    }
  }

  /** The length of the concatenation is the sum of the per-name lengths. */
  lemma {:induction false} FlattenLength<E>(names: seq<string>, instanceProp: InstanceProp<E>)
    ensures |Flatten(names, instanceProp)| == TotalCount(names, instanceProp)
  {
    if names != [] {
      FlattenLength(names[1..], instanceProp);
    }
  }

  /**
   * Splitting the names at any point splits the decorators of an instance
   * property into the outputs of the two parts, in order.
   */
  lemma InstancePropDecoratorsSplit<E>(instanceProp: InstanceProp<E>, k: nat)
    requires k <= |instanceProp.decoratorNames|
    ensures InstancePropDecorators(instanceProp)
            == Flatten(instanceProp.decoratorNames[..k], instanceProp)
               + Flatten(instanceProp.decoratorNames[k..], instanceProp)
  {
    var names := instanceProp.decoratorNames;
    assert names == names[..k] + names[k..];
    FlattenAppend(names[..k], names[k..], instanceProp);
  }

  /**
   * Which rule a name is routed to: falsy names contribute nothing, binding
   * names one binding decorator, marker names one bare decorator, and every
   * other name (including `action`) the call-expression decorators.
   */
  lemma DecoratorsForRouting<E>(decoratorName: string, instanceProp: InstanceProp<E>)
    ensures decoratorName == "" ==> DecoratorsFor(decoratorName, instanceProp) == []
    ensures IsBindingName(decoratorName) ==>
              DecoratorsFor(decoratorName, instanceProp) == BindingDecorators(decoratorName, instanceProp)
    ensures IsMarkerName(decoratorName) ==> DecoratorsFor(decoratorName, instanceProp) == [Ident(decoratorName)]
    ensures decoratorName != "" && !IsBindingName(decoratorName) && !IsMarkerName(decoratorName) ==>
              DecoratorsFor(decoratorName, instanceProp) == CallExpressionDecorators(decoratorName, instanceProp)
  {
  }

  /**
   * A name contributes nothing when it is falsy, or when it goes to the
   * call-expression rule for a volatile read-only member.
   */
  predicate Silent<E>(decoratorName: string, instanceProp: InstanceProp<E>) {
    decoratorName == "" ||
    (!IsBindingName(decoratorName) && !IsMarkerName(decoratorName) && instanceProp.isVolatileReadOnly)
  }

  /** The joined output is empty exactly when every name is silent. */
  lemma {:induction false} FlattenEmpty<E>(names: seq<string>, instanceProp: InstanceProp<E>)
    ensures Flatten(names, instanceProp) == [] <==> forall i :: 0 <= i < |names| ==> Silent(names[i], instanceProp)
  {
    if names != [] {
      FlattenEmpty(names[1..], instanceProp);
      if Flatten(names, instanceProp) == [] {
        forall i | 0 <= i < |names| ensures Silent(names[i], instanceProp) {
          if i > 0 {
            assert names[i] == names[1..][i - 1];
          }
        }
      }
      if forall i :: 0 <= i < |names| ==> Silent(names[i], instanceProp) {
        forall i | 0 <= i < |names[1..]| ensures Silent(names[1..][i], instanceProp) {
          assert names[1..][i] == names[i + 1];
        }
      }
    }
  }

  /**
   * An instance property gets no decorator at all exactly when each of its
   * names is falsy or is a call-expression name of a volatile read-only
   * member: binding and marker names still produce output for such a member.
   */
  lemma InstancePropDecoratorsEmpty<E>(instanceProp: InstanceProp<E>)
    ensures InstancePropDecorators(instanceProp) == []
            <==> forall i :: 0 <= i < |instanceProp.decoratorNames| ==>
                   Silent(instanceProp.decoratorNames[i], instanceProp)
  {
    FlattenEmpty(instanceProp.decoratorNames, instanceProp);
  }
}
