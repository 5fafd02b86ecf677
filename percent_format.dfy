/** The part of Python's `template % args` string formatting that the prompt
    plugin relies on: `%s` directives filled by string arguments, `%%` for a
    literal percent sign, and the TypeError Python raises when the number of
    arguments does not match the number of directives. */
module PercentFormat {
  import opened Values

  /** Every '%' in `t` starts a `%s` or a `%%` directive. */
  predicate OnlyStringDirectives(t: string)
    decreases |t|
  {
    if t == [] then true
    else if t[0] == '%' then
      |t| >= 2 && (t[1] == 's' || t[1] == '%') && OnlyStringDirectives(t[2..])
    else OnlyStringDirectives(t[1..])
  }

  /** The number of `%s` directives in `t`, i.e. of arguments it consumes. */
  function Directives(t: string): nat
    requires OnlyStringDirectives(t)
    decreases |t|
  {
    if t == [] then 0
    else if t[0] == '%' then (if t[1] == 's' then 1 else 0) + Directives(t[2..])
    else Directives(t[1..])
  }

  function Prepend(p: string, r: Option<string>): Option<string>
  {
    match r
    case Some(s) => Some(p + s)
    case None => None
  }

  /** `t % tuple(args)`; None stands for the TypeError Python raises when
      there are too few arguments ("not enough arguments for format string")
      or too many ("not all arguments converted during string formatting"). */
  function Interpolate(t: string, args: seq<string>): (r: Option<string>)
    requires OnlyStringDirectives(t)
    ensures r.Some? <==> |args| == Directives(t)
    decreases |t|
  {
    if t == [] then
      if args == [] then Some("") else None
    else if t[0] == '%' then
      if t[1] == '%' then Prepend("%", Interpolate(t[2..], args))
      else if args == [] then None
      else Prepend(args[0], Interpolate(t[2..], args[1..]))
    else Prepend([t[0]], Interpolate(t[1..], args))
  }

  /** Formatting a template that starts with an ordinary character copies it. */
  lemma PlainStep(c: char, rest: string, args: seq<string>)
    requires c != '%' && OnlyStringDirectives(rest)
    ensures OnlyStringDirectives([c] + rest) && Directives([c] + rest) == Directives(rest)
    ensures Interpolate([c] + rest, args) == Prepend([c], Interpolate(rest, args))
  {
    assert ([c] + rest)[0] == c && ([c] + rest)[1..] == rest;
  }

  /** Formatting a template that starts with `%s` puts the first argument there. */
  lemma DirectiveStep(rest: string, a: string, args: seq<string>)
    requires OnlyStringDirectives(rest)
    ensures OnlyStringDirectives("%s" + rest) && Directives("%s" + rest) == 1 + Directives(rest)
    ensures Interpolate("%s" + rest, [a] + args) == Prepend(a, Interpolate(rest, args))
  {
    var t := "%s" + rest;
    assert t[0] == '%' && t[1] == 's' && t[2..] == rest;
    assert ([a] + args)[0] == a && ([a] + args)[1..] == args;
  }

  /** A template without any '%' formats to itself when given no arguments. */
  lemma {:induction false} Verbatim(t: string)
    requires '%' !in t
    ensures OnlyStringDirectives(t) && Directives(t) == 0
    ensures Interpolate(t, []) == Some(t)
  {
    if t != [] {
      Verbatim(t[1..]);
      assert [t[0]] + t[1..] == t;
      PlainStep(t[0], t[1..], []);
    }
  }

  /** A template with a single `%s` and no other '%' substitutes its one
      argument in place of the directive. */
  lemma {:induction false} SubstituteOne(pre: string, a: string, post: string)
    requires '%' !in pre && '%' !in post
    ensures OnlyStringDirectives(pre + "%s" + post)
    ensures Directives(pre + "%s" + post) == 1
    ensures Interpolate(pre + "%s" + post, [a]) == Some(pre + a + post)
  {
    if pre == [] {
      assert pre + "%s" + post == "%s" + post;
      assert pre + a + post == a + post;
      assert [a] == [a] + [];
      Verbatim(post);
      DirectiveStep(post, a, []);
    } else {
      var rest := pre[1..] + "%s" + post;
      assert pre + "%s" + post == [pre[0]] + rest;
      assert pre + a + post == [pre[0]] + (pre[1..] + a + post);
      SubstituteOne(pre[1..], a, post);
      PlainStep(pre[0], rest, [a]);
    }
  }
}
