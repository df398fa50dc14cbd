/** The placeholder binder behind DummyPDOStatement::get_bound_query: every `?` of the
    template is turned into a `%s` directive, every bound value is wrapped in double
    quotes, and `vsprintf` fills the directives with the quoted values from left to right.

    Only the `%s` directive of `vsprintf` is modelled, so templates must not contain `%`
    of their own (see NoPercent). */
module Binder {
  import opened Text

  const Placeholder: char := '?'

  /** The outcome of `vsprintf`: the formatted text, or the failure PHP reports when the
      argument array has fewer elements than the format has directives. */
  datatype FormatResult = Formatted(text: string) | TooFewArguments

  predicate NoPercent(s: string)
  {
    '%' !in s
  }

  /** Every `%` of `fmt` starts a `%s` directive. */
  predicate OnlyStringDirectives(fmt: string)
  {
    forall i :: 0 <= i < |fmt| && fmt[i] == '%' ==> i + 1 < |fmt| && fmt[i + 1] == 's'
  }

  /** PHP `str_replace("?", "%s", s)`. */
  function ReplacePlaceholders(s: string): (r: string)
    ensures Count(r, Placeholder) == 0
    ensures NoPercent(s) ==> OnlyStringDirectives(r)
    ensures NoPercent(s) ==> Count(r, '%') == Count(s, Placeholder)
  {
    if s == [] then ""
    else if s[0] == Placeholder then "%s" + ReplacePlaceholders(s[1..])
    else [s[0]] + ReplacePlaceholders(s[1..])
  }

  /** The text a bound value contributes: the value between double quotes. */
  function Quote(value: string): (q: string)
    ensures |q| == |value| + 2 && q[0] == '"' && q[|q| - 1] == '"'
    ensures q[1..|q| - 1] == value
  {
    "\"" + value + "\""
  }

  /** Every value quoted, in the original order. */
  function QuoteAll(values: seq<string>): seq<string>
  {
    seq(|values|, i requires 0 <= i < |values| => Quote(values[i]))
  }

  /** Quoting distributes over concatenation: the values of each part are quoted where
      they stand. */
  lemma QuoteAllAppend(a: seq<string>, b: seq<string>)
    ensures QuoteAll(a + b) == QuoteAll(a) + QuoteAll(b)
  {
  }

  /** PHP `vsprintf(fmt, args)` on a format whose only directive is `%s`: each directive is
      replaced by the next unused argument; surplus arguments are never looked at. */
  function Format(fmt: string, args: seq<string>): (r: FormatResult)
    requires OnlyStringDirectives(fmt)
    decreases |fmt|
    ensures r.TooFewArguments? <==> |args| < Count(fmt, '%')
  {
    if fmt == [] then Formatted("")
    else if fmt[0] == '%' then
      DirectivesSuffix(fmt, 2);
      assert fmt[1..][1..] == fmt[2..];
      if args == [] then TooFewArguments
      else
        match Format(fmt[2..], args[1..])
        case Formatted(rest) => Formatted(args[0] + rest)
        case TooFewArguments => TooFewArguments
    else
      DirectivesSuffix(fmt, 1);
      match Format(fmt[1..], args)
      case Formatted(rest) => Formatted([fmt[0]] + rest)
      case TooFewArguments => TooFewArguments
  }

  /** What get_bound_query returns for a template and the bound values. */
  function BoundQuery(template: string, values: seq<string>): (r: FormatResult)
    requires NoPercent(template)
    ensures r.TooFewArguments? <==> |values| < Count(template, Placeholder)
  {
    Format(ReplacePlaceholders(template), QuoteAll(values))
  }

  /** Reference definition of binding, independent of formatting: the template read left
      to right, each placeholder replaced by the next value in quotes. */
  function Substitute(template: string, values: seq<string>): string
    requires Count(template, Placeholder) <= |values|
  {
    if template == [] then ""
    else if template[0] == Placeholder then Quote(values[0]) + Substitute(template[1..], values[1..])
    else [template[0]] + Substitute(template[1..], values)
  }

  lemma DirectivesSuffix(fmt: string, k: nat)
    requires OnlyStringDirectives(fmt) && k <= |fmt|
    requires k > 0 ==> fmt[k - 1] != '%'
    ensures OnlyStringDirectives(fmt[k..])
  {
    forall i | 0 <= i < |fmt[k..]| && fmt[k..][i] == '%'
      ensures i + 1 < |fmt[k..]| && fmt[k..][i + 1] == 's'
    {
      assert fmt[k + i] == '%';
    }
  }

  lemma NoPercentTail(s: string)
    requires s != [] && NoPercent(s)
    ensures NoPercent(s[1..])
  {
    assert s == [s[0]] + s[1..];
  }

  /** One placeholder step of BoundQueryIsSubstitute. */
  lemma FormatDirectiveStep(template: string, values: seq<string>)
    requires template != [] && template[0] == Placeholder && NoPercent(template)
    ensures NoPercent(template[1..])
    ensures BoundQuery(template, values) ==
            if values == [] then TooFewArguments
            else match BoundQuery(template[1..], values[1..])
                 case Formatted(rest) => Formatted(Quote(values[0]) + rest)
                 case TooFewArguments => TooFewArguments
  {
    NoPercentTail(template);
    var fmt := ReplacePlaceholders(template);
    assert fmt == "%s" + ReplacePlaceholders(template[1..]);
    assert fmt[0] == '%' && fmt[2..] == ReplacePlaceholders(template[1..]);
    if values != [] {
      assert values == [values[0]] + values[1..];
      QuoteAllAppend([values[0]], values[1..]);
    }
  }

  /** One literal-character step of BoundQueryIsSubstitute. */
  lemma FormatLiteralStep(template: string, values: seq<string>)
    requires template != [] && template[0] != Placeholder && NoPercent(template)
    ensures NoPercent(template[1..])
    ensures BoundQuery(template, values) ==
            match BoundQuery(template[1..], values)
            case Formatted(rest) => Formatted([template[0]] + rest)
            case TooFewArguments => TooFewArguments
  {
    NoPercentTail(template);
    var fmt := ReplacePlaceholders(template);
    assert fmt == [template[0]] + ReplacePlaceholders(template[1..]);
    assert fmt[0] != '%' && fmt[1..] == ReplacePlaceholders(template[1..]);
  }

  /** Binding fails exactly when there are fewer values than placeholders, and otherwise
      yields the left-to-right substitution. */
  lemma {:induction false} BoundQueryIsSubstitute(template: string, values: seq<string>)
    requires NoPercent(template)
    ensures BoundQuery(template, values) ==
            if Count(template, Placeholder) <= |values| then Formatted(Substitute(template, values))
            else TooFewArguments
  {
    if template == [] {
    } else if template[0] == Placeholder {
      FormatDirectiveStep(template, values);
      if values != [] {
        BoundQueryIsSubstitute(template[1..], values[1..]);
      }
    } else {
      FormatLiteralStep(template, values);
      BoundQueryIsSubstitute(template[1..], values);
    }
  }

  /** Binding the templates of a concatenation: the second part takes the values the first
      part leaves over. */
  lemma {:induction false} SubstituteAppend(a: string, b: string, values: seq<string>)
    requires Count(a + b, Placeholder) <= |values|
    ensures Count(a, Placeholder) + Count(b, Placeholder) <= |values|
    ensures Substitute(a + b, values) ==
            Substitute(a, values) + Substitute(b, values[Count(a, Placeholder)..])
  {
    CountAppend(a, b, Placeholder);
    if a == [] {
      assert a + b == b;
    } else {
      var t := a + b;
      assert t[0] == a[0] && t[1..] == a[1..] + b;
      CountAppend(a[1..], b, Placeholder);
      if a[0] == Placeholder {
        var rest := values[1..];
        SubstituteAppend(a[1..], b, rest);
        assert rest[Count(a[1..], Placeholder)..] == values[Count(a, Placeholder)..];
        calc {
          Substitute(t, values);
          Quote(values[0]) + Substitute(a[1..] + b, rest);
          Quote(values[0]) + (Substitute(a[1..], rest) + Substitute(b, values[Count(a, Placeholder)..]));
          (Quote(values[0]) + Substitute(a[1..], rest)) + Substitute(b, values[Count(a, Placeholder)..]);
        }
      } else {
        SubstituteAppend(a[1..], b, values);
        calc {
          Substitute(t, values);
          [a[0]] + Substitute(a[1..] + b, values);
          [a[0]] + (Substitute(a[1..], values) + Substitute(b, values[Count(a, Placeholder)..]));
          ([a[0]] + Substitute(a[1..], values)) + Substitute(b, values[Count(a, Placeholder)..]);
        }
      }
    }
  }

  /** A template without placeholders is bound to itself. */
  lemma {:induction false} SubstituteLiteral(template: string, values: seq<string>)
    requires Count(template, Placeholder) == 0
    ensures Substitute(template, values) == template
  {
    if template != [] {
      SubstituteLiteral(template[1..], values);
    }
  }

  /** The placeholders of a template are those before position `pos`, the one at `pos`,
      and those after it. */
  lemma CountAround(template: string, pos: nat)
    requires pos < |template| && template[pos] == Placeholder
    ensures Count(template[..pos], Placeholder) + 1 + Count(template[pos + 1..], Placeholder)
            == Count(template, Placeholder)
  {
    var before, after := template[..pos], template[pos..];
    assert template == before + after;
    assert after[1..] == template[pos + 1..];
    CountAppend(before, after, Placeholder);
  }

  /** The placeholder at position `pos`, preceded by `i` other placeholders, becomes the
      `i`-th value in quotes, with the template before it bound to the values before it. */
  lemma {:induction false} NthPlaceholder(template: string, values: seq<string>, pos: nat)
    requires Count(template, Placeholder) <= |values|
    requires pos < |template| && template[pos] == Placeholder
    ensures Count(template[..pos], Placeholder) + 1 + Count(template[pos + 1..], Placeholder)
            == Count(template, Placeholder)
    ensures var i := Count(template[..pos], Placeholder);
            Substitute(template, values) ==
              Substitute(template[..pos], values) + Quote(values[i]) +
              Substitute(template[pos + 1..], values[i + 1..])
  {
    CountAround(template, pos);
    var before, after, rest := template[..pos], template[pos..], template[pos + 1..];
    assert template == before + after;
    assert after[0] == Placeholder && after[1..] == rest;
    var i := Count(before, Placeholder);
    SubstituteAppend(before, after, values);
    assert values[i..][1..] == values[i + 1..];
    assert Substitute(after, values[i..]) == Quote(values[i]) + Substitute(rest, values[i + 1..]);
  }

  /** Values beyond the placeholder count have no effect on the result. */
  lemma {:induction false} SubstituteIgnoresExtra(template: string, values: seq<string>)
    requires Count(template, Placeholder) <= |values|
    ensures Substitute(template, values) == Substitute(template, values[..Count(template, Placeholder)])
  {
    if template != [] {
      if template[0] == Placeholder {
        SubstituteIgnoresExtra(template[1..], values[1..]);
        assert values[..Count(template, Placeholder)][1..] == values[1..][..Count(template[1..], Placeholder)];
      } else {
        SubstituteIgnoresExtra(template[1..], values);
      }
    }
  }

  /** When no value that is used contains `?`, no `?` is left in the bound query. */
  lemma {:induction false} NoPlaceholderRemains(template: string, values: seq<string>)
    requires Count(template, Placeholder) <= |values|
    requires forall j :: 0 <= j < Count(template, Placeholder) ==> Count(values[j], Placeholder) == 0
    ensures Count(Substitute(template, values), Placeholder) == 0
  {
    if template != [] {
      var rest := template[1..];
      if template[0] == Placeholder {
        forall j | 0 <= j < Count(rest, Placeholder)
          ensures Count(values[1..][j], Placeholder) == 0
        {
          assert values[1..][j] == values[j + 1];
        }
        NoPlaceholderRemains(rest, values[1..]);
        CountAppend(Quote(values[0]), Substitute(rest, values[1..]), Placeholder);
        assert Quote(values[0]) == "\"" + values[0] + "\"";
        CountAppend("\"" + values[0], "\"", Placeholder);
        CountAppend("\"", values[0], Placeholder);
      } else {
        NoPlaceholderRemains(rest, values);
        CountAppend([template[0]], Substitute(rest, values), Placeholder);
      }
    }
  }

  /** With exactly as many values as placeholders, binding succeeds and leaves no
      placeholder behind when the values contain none. */
  lemma ExactBinding(template: string, values: seq<string>)
    requires NoPercent(template) && Count(template, Placeholder) == |values|
    requires forall j :: 0 <= j < |values| ==> Count(values[j], Placeholder) == 0
    ensures BoundQuery(template, values).Formatted?
    ensures forall k :: 0 <= k < |BoundQuery(template, values).text| ==>
              BoundQuery(template, values).text[k] != Placeholder
  {
    BoundQueryIsSubstitute(template, values);
    NoPlaceholderRemains(template, values);
    CountZero(Substitute(template, values), Placeholder);
  }

  /** Extra values are ignored by get_bound_query as a whole. */
  lemma BoundQueryIgnoresExtra(template: string, values: seq<string>)
    requires NoPercent(template) && Count(template, Placeholder) <= |values|
    ensures BoundQuery(template, values) == BoundQuery(template, values[..Count(template, Placeholder)])
  {
    BoundQueryIsSubstitute(template, values);
    BoundQueryIsSubstitute(template, values[..Count(template, Placeholder)]);
    SubstituteIgnoresExtra(template, values);
  }

  /** A template of two literal parts each followed by a placeholder, bound to two values. */
  lemma TwoPlaceholders(p1: string, p2: string, a: string, b: string)
    requires Placeholder !in p1 && Placeholder !in p2
    ensures Count(p1 + "?" + p2 + "?", Placeholder) == 2
    ensures Substitute(p1 + "?" + p2 + "?", [a, b]) == p1 + Quote(a) + p2 + Quote(b)
  {
    var t, v := p1 + "?" + p2 + "?", [a, b];
    assert t == p1 + ("?" + (p2 + "?"));
    CountZero(p1, Placeholder);
    CountZero(p2, Placeholder);
    CountAppend(p2, "?", Placeholder);
    CountAppend("?", p2 + "?", Placeholder);
    CountAppend(p1, "?" + (p2 + "?"), Placeholder);
    SubstituteAppend(p1, "?" + (p2 + "?"), v);
    SubstituteLiteral(p1, v);
    SubstituteAppend("?", p2 + "?", v);
    assert Substitute("?", v) == Quote(a);
    SubstituteAppend(p2, "?", v[1..]);
    SubstituteLiteral(p2, v[1..]);
    assert Substitute("?", v[1..][Count(p2, Placeholder)..]) == Quote(b);
  }

  /** get_bound_query on such a template. */
  lemma BindTwoPlaceholders(p1: string, p2: string, a: string, b: string)
    requires NoPercent(p1) && NoPercent(p2)
    requires Placeholder !in p1 && Placeholder !in p2
    ensures NoPercent(p1 + "?" + p2 + "?")
    ensures BoundQuery(p1 + "?" + p2 + "?", [a, b]) == Formatted(p1 + Quote(a) + p2 + Quote(b))
  {
    var t := p1 + "?" + p2 + "?";
    assert NoPercent(t);
    TwoPlaceholders(p1, p2, a, b);
    BoundQueryIsSubstitute(t, [a, b]);
  }

  /** An example query with two placeholders. */
  lemma BindingExample()
    ensures NoPercent("SELECT * FROM users WHERE name = ? AND age = ?")
    ensures BoundQuery("SELECT * FROM users WHERE name = ? AND age = ?", ["Fred", "10"]) ==
            Formatted("SELECT * FROM users WHERE name = \"Fred\" AND age = \"10\"")
  {
    var p1, p2 := "SELECT * FROM users WHERE name = ", " AND age = ";
    ExampleTemplate();
    ExampleQuery();
    BindTwoPlaceholders(p1, p2, "Fred", "10");
  }

  lemma ExampleTemplate()
    ensures "SELECT * FROM users WHERE name = " + "?" + " AND age = " + "?" ==
            "SELECT * FROM users WHERE name = ? AND age = ?"
    ensures NoPercent("SELECT * FROM users WHERE name = ") && NoPercent(" AND age = ")
    ensures Placeholder !in "SELECT * FROM users WHERE name = " && Placeholder !in " AND age = "
  {
    ExampleTemplateText();
    ExampleFirstPart();
  }

  lemma ExampleFirstPart()
    ensures NoPercent("SELECT * FROM users WHERE name = ")
    ensures Placeholder !in "SELECT * FROM users WHERE name = "
  {
  }

  lemma ExampleTemplateText()
    ensures "SELECT * FROM users WHERE name = " + "?" + " AND age = " + "?" ==
            "SELECT * FROM users WHERE name = ? AND age = ?"
  {
  }

  lemma ExampleQuery()
    ensures "SELECT * FROM users WHERE name = " + Quote("Fred") + " AND age = " + Quote("10") ==
            "SELECT * FROM users WHERE name = \"Fred\" AND age = \"10\""
  {
  }
}
