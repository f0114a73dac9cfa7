/**
 * The decorators the rules give for a few typical legacy Ember members, stated
 * as lemmas about the model. Argument expressions other than string
 * literals are `Opaque(n)` for an arbitrary node id `n`.
 */
module Scenarios {
  import opened Ast
  import opened DecoratorHelper

  /** A member with no names, arguments, modifiers or bindings. */
  function Bare(names: seq<string>): InstanceProp<int> {
    InstanceProp(names, [], false, false, [], None)
  }

  /**
   * `computed('a', 'b', function() {...}).readOnly()`: the getter is dropped
   * from the arguments and the modifier is stacked after the primary decorator.
   */
  lemma ComputedWithGetterAndReadOnly()
    ensures InstancePropDecorators(
              InstanceProp(["computed"], [Lit("a"), Lit("b"), Opaque(7)], true, false,
                           [Modifier("readOnly", [])], None))
            == [Call("computed", [Lit("a"), Lit("b")]), Ident("readOnly")]
  {
    var args: seq<Expr<int>> := [Lit("a"), Lit("b"), Opaque(7)];
    assert args[0..2] == [Lit("a"), Lit("b")];
  }

  /** `action` is not a marker name: it gets the call-style decorator `@action()`. */
  lemma ActionIsCallStyle()
    ensures InstancePropDecorators(Bare(["action"])) == [Call("action", [])]
  {
  }

  /** `off` and `unobserves` get bare decorators. */
  lemma MarkersAreBare()
    ensures InstancePropDecorators(Bare(["off", "unobserves"])) == [Ident("off"), Ident("unobserves")]
  {
  }

  /** A class-name binding is bare without bound properties and call-style with them. */
  lemma ClassNameBinding()
    ensures InstancePropDecorators(Bare(["className"]).(propList := Some([]))) == [Ident("className")]
    ensures InstancePropDecorators(Bare(["className"]).(propList := Some(["is-active"])))
            == [Call("className", [Lit("is-active")])]
  {
    assert Literals<int>(["is-active"]) == [Lit("is-active")];
  }

  /**
   * A volatile read-only member loses only its call-expression decorators:
   * the binding and marker names still produce theirs.
   */
  lemma VolatileKeepsBindingAndMarker()
    ensures InstancePropDecorators(Bare(["className", "", "computed", "off"]).(isVolatileReadOnly := true))
            == [Ident("className"), Ident("off")]
  {
  }

  /** `classNames: ['a', 'b']` becomes `@classNames('a', 'b')`; `tagName: 'div'` becomes `@tagName('div')`. */
  lemma ClassDecorators()
    ensures ClassDecorator<int>(ClassDecoratorProp("classNames", ArrayExpression([Lit("a"), Lit("b")])))
            == Call("classNames", [Lit("a"), Lit("b")])
    ensures ClassDecorator<int>(ClassDecoratorProp("tagName", SingleValue(Lit("div"))))
            == Call("tagName", [Lit("div")])
  {
  }

  /**
   * Attaching the decorators of a volatile read-only computed property leaves
   * the member without a `decorators` property; a binding member gets its one.
   */
  method AttachToMembers() returns (plain: Node<int>, bound: Node<int>)
    ensures plain.decorators == None
    ensures bound.decorators == Some([Ident("attribute")])
  {
    var volatile := Bare(["computed"]).(isVolatileReadOnly := true);
    var none := CreateCallExpressionDecorators("computed", volatile);
    plain := new Node(None);
    plain := WithDecorators(plain, none);
    bound := new Node(None);
    var binding := InstancePropDecorators(Bare(["attribute"]));
    assert binding == [Ident("attribute")];
    bound := WithDecorators(bound, binding);
  }
}
