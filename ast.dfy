/**
 * Abstract stand-ins for the AST nodes that the decorator helpers build with
 * the jscodeshift builder `j`. Argument expressions are opaque (type parameter
 * `E`), except for string literals, which the binding rule creates itself.
 */
module Ast {

  /** An optional value: `None` stands for a missing (undefined) field. */
  datatype Option<+T> = None | Some(value: T)

  /** An argument expression: a string literal (`j.literal`) or any other node. */
  datatype Expr<E> = Lit(text: string) | Opaque(node: E)

  /**
   * A decorator node. `Ident(n)` is `@n` (`j.decorator(j.identifier(n))`);
   * `Call(c, args)` is `@c(args...)` (`j.decorator(j.callExpression(...))`),
   * which stays distinct from `Ident` even when `args` is empty.
   */
  datatype Decorator<E> = Ident(name: string) | Call(callee: string, args: seq<Expr<E>>)

  /** A chained modifier such as `.readOnly()` or `.meta(...)` on a legacy computed property. */
  datatype Modifier<E> = Modifier(prop: string, args: seq<Expr<E>>)

  /**
   * The descriptor of one legacy instance property. An empty string in
   * `decoratorNames` stands for a falsy name.
   */
  datatype InstanceProp<E> = InstanceProp(
    decoratorNames: seq<string>,
    callExprArgs: seq<Expr<E>>,
    hasNonLiteralArg: bool,
    isVolatileReadOnly: bool,
    modifiers: seq<Modifier<E>>,
    propList: Option<seq<string>>)

  /** The value of a class-level property: an array literal or any single expression. */
  datatype ClassValue<E> = ArrayExpression(elements: seq<Expr<E>>) | SingleValue(value: Expr<E>)

  /** A class-level property such as `tagName` or `classNames`. */
  datatype ClassDecoratorProp<E> = ClassDecoratorProp(name: string, value: ClassValue<E>)
}
