# Decorator synthesis for the Ember ES6 class codemod

This project models the decorator helpers of the Ember ES6 class codemod
(`transforms/helpers/decorator-helper.js`): the rules that decide which
decorators a legacy Ember class or class member receives when it is rewritten
as a native class. The AST builder of jscodeshift is replaced by two small
datatypes (module `Ast`): `Decorator<E>` is either identifier-style
(`Ident(name)`, `@name`) or call-style (`Call(callee, args)`, `@callee(...)`,
distinct even with no arguments), and an argument is either a string literal
`Lit(text)` or an opaque expression node `Opaque(node)`.

Module `DecoratorHelper` holds the rules:

- `WithDecorators` sets the `decorators` field of a `Node` in place, only when
  the list is non-empty, and returns the same node.
- `ClassDecorator` builds the one call-style class decorator (`@tagName(...)`,
  `@classNames(...)`), spreading array literals into arguments.
- `CallExpressionDecorators` (a fold, the specification) and
  `CreateCallExpressionDecorators` (the loop that pushes onto an accumulator,
  proved equal to it) give a computed property or method its primary
  call-style decorator, with the trailing getter function dropped from the
  arguments, followed by one decorator per chained modifier; a volatile
  read-only member gets none.
- `IdentifierDecorators` gives one bare decorator, `@action` by default.
- `BindingDecorators` gives one decorator for a `className` or `attribute`
  binding: call-style with one string literal per bound property, or bare.
- `InstancePropDecorators` routes each decorator name to one of these rules and
  concatenates the results in the order of the names; `Flatten` is an
  independent right-nested definition that the fold is proved equal to.

Module `Scenarios` states, as lemmas, the decorators the rules give for typical members.

In three places a reader might expect something other than what the code
does; the model follows the code:

- `action` might be expected to be a bare marker, but `createInstancePropDecorators`
  sends only `off` and `unobserves` to the identifier rule
  (`transforms/helpers/decorator-helper.js:114`); `action` falls through to the
  call-expression rule and becomes `@action(...)` (`Scenarios.ActionIsCallStyle`).
- The output might be expected to be empty exactly when the member is volatile
  read-only or has no actionable names. In the code the volatile check lives
  only in the call-expression rule (`:49-51`), so binding and marker names
  still produce decorators for a volatile member
  (`DecoratorHelper.InstancePropDecoratorsEmpty`,
  `Scenarios.VolatileKeepsBindingAndMarker`).
- For a modifier with arguments the code writes
  `j.decorator(j.callExpression(modifier.prop), modifier.args)` (`:57`): the
  arguments go to `j.decorator`, not to `j.callExpression`. The model builds
  the evidently intended `Call(prop, args)` (see `ModifierDecorator` below).

## Model

| member | source | states |
|---|---|---|
| DecoratorHelper.Node.constructor | transforms/helpers/decorator-helper.js:9-14 | the node `to` that `withDecorators` updates; it starts with the given `decorators` field (`None` when absent) |
| DecoratorHelper.WithDecorators | transforms/helpers/decorator-helper.js:9-14 | returns the same node; with a non-empty list `decorators` becomes exactly that list, with an empty list it is unchanged; a node never gains an empty decorator list |
| DecoratorHelper.ClassDecorator | transforms/helpers/decorator-helper.js:23-33 | exactly one call-style decorator named after the property; its arguments are the array elements in order for an array literal, otherwise the single value |
| DecoratorHelper.PrimaryArgs | transforms/helpers/decorator-helper.js:45-47 | with a non-literal last argument the arguments are `callExprArgs` minus exactly its last element (empty stays empty); otherwise all of `callExprArgs` |
| DecoratorHelper.ModifierDecorator | transforms/helpers/decorator-helper.js:55-61 | call-style with the modifier's name and arguments iff it has arguments, otherwise identifier-style with its name |
| DecoratorHelper.PushModifiers | transforms/helpers/decorator-helper.js:53-63 | the reduce over the modifiers keeps the accumulator as a prefix and adds exactly one decorator per modifier |
| DecoratorHelper.PushModifiersAppends | transforms/helpers/decorator-helper.js:53-63 | decorator `|acc|+i` of the reduce comes from modifier `i`, so the modifiers keep their order |
| DecoratorHelper.CallExpressionDecorators | transforms/helpers/decorator-helper.js:44-66 | empty for a volatile read-only member whatever its other fields; otherwise length `1 + |modifiers|`, first element `Call(decoratorName, PrimaryArgs)` even with no arguments, element `i+1` from modifier `i` |
| DecoratorHelper.CreateCallExpressionDecorators | transforms/helpers/decorator-helper.js:44-66 | the push loop over the modifiers returns exactly the fold `CallExpressionDecorators` |
| DecoratorHelper.IdentifierDecorators | transforms/helpers/decorator-helper.js:74-76 | exactly one identifier-style decorator carrying the given name (`action` when none is given) |
| DecoratorHelper.Literals | transforms/helpers/decorator-helper.js:89 | one string literal per property name, same length, same order |
| DecoratorHelper.LiteralsRoundTrip | transforms/helpers/decorator-helper.js:89 | reading the literal arguments back gives the property names unchanged |
| DecoratorHelper.BindingDecorators | transforms/helpers/decorator-helper.js:86-95 | exactly one decorator; call-style iff `propList` is present and non-empty, then with one literal per entry in order; otherwise identifier-style with the decorator name |
| DecoratorHelper.DecoratorsForRouting | transforms/helpers/decorator-helper.js:106-119 | a falsy name gives nothing, `className`/`attribute` the binding rule, `off`/`unobserves` one bare decorator, every other name (`action` included) the call-expression rule |
| DecoratorHelper.DecoratorsFor | transforms/helpers/decorator-helper.js:106-119 | the per-name step of the reduce: nothing iff the name is falsy or a call-expression name of a volatile read-only member; exactly one decorator for a binding or marker name |
| DecoratorHelper.ConcatNames | transforms/helpers/decorator-helper.js:105-120 | the reduce with `concat` equals the accumulator followed by the per-name outputs joined in order |
| DecoratorHelper.InstancePropDecorators | transforms/helpers/decorator-helper.js:104-121 | the decorators of a member are the per-name outputs concatenated in name order, and their number is the sum of the per-name counts |
| DecoratorHelper.FlattenAppend | transforms/helpers/decorator-helper.js:105-120 | the output for consecutive name lists is the output for the first followed by the output for the second |
| DecoratorHelper.FlattenLength | transforms/helpers/decorator-helper.js:105-120 | the output length is the sum of the per-name output lengths |
| DecoratorHelper.InstancePropDecoratorsSplit | transforms/helpers/decorator-helper.js:104-121 | splitting the name list at any point splits a member's decorators into the outputs of the two parts, in order |
| DecoratorHelper.FlattenEmpty | transforms/helpers/decorator-helper.js:105-120 | the joined output is empty iff every name contributes nothing |
| DecoratorHelper.InstancePropDecoratorsEmpty | transforms/helpers/decorator-helper.js:104-121 | a member gets no decorator iff each name is falsy or a call-expression name of a volatile read-only member |
| Scenarios.ComputedWithGetterAndReadOnly | transforms/helpers/decorator-helper.js:44-66 | `computed('a','b', fn).readOnly()` gives `@computed('a','b')` then `@readOnly` |
| Scenarios.ActionIsCallStyle | transforms/helpers/decorator-helper.js:117-119 | a member named `action` gets the call-style `@action()` |
| Scenarios.MarkersAreBare | transforms/helpers/decorator-helper.js:114-115 | `off` and `unobserves` give bare decorators in order |
| Scenarios.ClassNameBinding | transforms/helpers/decorator-helper.js:86-95 | a `className` binding with an empty list is bare, with `["is-active"]` it is `@className("is-active")` |
| Scenarios.VolatileKeepsBindingAndMarker | transforms/helpers/decorator-helper.js:49-51 | a volatile read-only member with names `className`, falsy, `computed`, `off` gets `@className` and `@off` only |
| Scenarios.ClassDecorators | transforms/helpers/decorator-helper.js:25-29 | `classNames: ['a','b']` gives `@classNames('a','b')`, `tagName: 'div'` gives `@tagName('div')` |
| Scenarios.AttachToMembers | transforms/helpers/decorator-helper.js:9-14 | a suppressed member is left without a `decorators` field; a binding member gets its one decorator |

## Left out

- The jscodeshift builder (`j.decorator`, `j.callExpression`, `j.identifier`, `j.literal`) is a foreign AST library; it is replaced by the `Decorator` and `Expr` datatypes, and argument expressions other than string literals are opaque.
- The choice between spreading and a single argument in `createClassDecorator` reads `classDecoratorProp.type === "ArrayExpression"` (line 25), a property of a wrapper that is not part of this model; the model takes it from the shape of the value (`ArrayExpression` or `SingleValue`).
- A modifier's `prop` is an AST node in the source (it is passed straight to `j.decorator` at line 60); the model takes it to be the modifier's name as a string.
- `withDecorators` stores the caller's array itself (line 11), so a later change to that array would show on the node; the model stores the list as a value, and this aliasing is not modelled.
- `get` from `./util` is not part of this model; `propList` is read as a plain optional field.
- ModifierDecorator: models the evidently intended `@prop(args...)` for a modifier with arguments, not the node the builder call at line 57 would produce (arguments handed to `j.decorator`), because that depends on the builder library, which is not modelled.
- Falsy decorator names are modelled by the empty string only; `undefined`, `null` and other falsy values in `decoratorNames` are not distinguished.
- A descriptor with missing fields (for example no `callExprArgs`, on which `slice` would throw) is not modelled: every descriptor field is always present.
- IdentifierDecorators: the `action` default applies when the argument is omitted; an explicit `undefined` argument is not modelled.
- `createBindingDecorators` is not exported by the source module; it is modelled because the dispatch calls it.
- The test output fixture `test/fixtures/output/app/router.js` has no logic to model.
- Parsing legacy class bodies, file traversal, the command line and printing the rewritten tree are outside the helpers.
