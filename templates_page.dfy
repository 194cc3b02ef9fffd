/**
  The logic of the templates page: the search filter over the template list,
  the extraction of `{{name}}` variables from a template's text, keeping the
  edit form's variable list in step with its body and subject, and the preview
  that fills the variables with sample values.
 */
module TemplatesPage {
  import opened Wrappers
  import opened Seqs
  import opened Text
  import opened Types

  // ---------------------------------------------------------------------------
  // the list filter
  // ---------------------------------------------------------------------------

  /** A template is listed when its body, or its subject if it has one,
      contains the query ignoring case, and the event and channel filters are
      "all" or equal to the template's. */
  predicate TemplateListed(t: MessageTemplate, query: string, eventFilter: string, channelFilter: string) {
    && (ContainsIgnoreCase(t.body, query) || (t.subject.Some? && ContainsIgnoreCase(t.subject.value, query)))
    && (eventFilter == "all" || t.eventId == eventFilter)
    && (channelFilter == "all" || t.channelId == channelFilter)
  }

  function ListedBy(query: string, eventFilter: string, channelFilter: string): MessageTemplate -> bool {
    (t: MessageTemplate) => TemplateListed(t, query, eventFilter, channelFilter)
  }

  /** The templates shown, in table order. */
  function FilteredTemplates(templates: seq<MessageTemplate>, query: string,
                             eventFilter: string, channelFilter: string): (r: seq<MessageTemplate>)
    ensures forall t :: t in r ==> t in templates && TemplateListed(t, query, eventFilter, channelFilter)
    ensures forall t :: t in templates && TemplateListed(t, query, eventFilter, channelFilter) ==> t in r
    ensures SubsequenceOf(r, templates)
    ensures forall t :: multiset(r)[t] ==
                        if TemplateListed(t, query, eventFilter, channelFilter) then multiset(templates)[t] else 0
  {
    FilterMultiset(templates, ListedBy(query, eventFilter, channelFilter));
    FilterMembers(templates, ListedBy(query, eventFilter, channelFilter));
    FilterIsSubsequence(templates, ListedBy(query, eventFilter, channelFilter));
    Filter(templates, ListedBy(query, eventFilter, channelFilter))
  }

  /** With an empty search and both filters on "all", every template is shown. */
  lemma {:induction false} UnfilteredShowsAll(templates: seq<MessageTemplate>)
    ensures FilteredTemplates(templates, "", "all", "all") == templates
  {
    forall t | t in templates ensures ListedBy("", "all", "all")(t) {
      EmptyQueryMatches(t.body);
    }
    FilterAll(templates, ListedBy("", "all", "all"));
  }

  // ---------------------------------------------------------------------------
  // extractVariables: text.match(/\{\{([^}]+)\}\}/g), braces removed, trimmed, de-duplicated
  // ---------------------------------------------------------------------------

  /** The length of the longest prefix of s free of '}' (what `[^}]+` consumes). */
  function RunLength(s: string): (n: nat)
    ensures n <= |s|
    ensures forall k :: 0 <= k < n ==> s[k] != '}'
    ensures n < |s| ==> s[n] == '}'
  {
    if s == [] || s[0] == '}' then 0 else 1 + RunLength(s[1..])
  }

  lemma {:induction false} RunLengthUpTo(w: string, rest: string)
    requires '}' !in w
    ensures RunLength(w + "}" + rest) == |w|
    decreases |w|
  {
    if w != [] {
      assert (w + "}" + rest)[1..] == w[1..] + "}" + rest;
      assert w[0] in w;
      RunLengthUpTo(w[1..], rest);
    }
  }

  /** A match of the pattern starts at the front of s: "{{", a non-empty run
      free of '}', then "}}". Because the run is maximal and cannot contain '}',
      backtracking to a shorter run never helps. */
  predicate TokenAtFront(s: string) {
    && |s| >= 2 && s[0] == '{' && s[1] == '{'
    && var n := RunLength(s[2..]);
       n >= 1 && 4 + n <= |s| && s[3 + n] == '}'
  }

  /** The captured names between the braces of every match, left to right;
      scanning resumes after each match. */
  function Tokens(s: string): seq<string>
    decreases |s|
  {
    if |s| < 2 then []
    else if TokenAtFront(s) then
      var n := RunLength(s[2..]);
      [s[2..2 + n]] + Tokens(s[4 + n..])
    else Tokens(s[1..])
  }

  /** `m.replace(/\{\{|\}\}/g, "")`: every "{{" or "}}" met scanning left to
      right is dropped. */
  function StripBraces(s: string): string
    decreases |s|
  {
    if |s| < 2 then s
    else if s[..2] == "{{" || s[..2] == "}}" then StripBraces(s[2..])
    else [s[0]] + StripBraces(s[1..])
  }

  /** The variable name a match yields. */
  function NameOf(inner: string): string {
    Trim(StripBraces("{{" + inner + "}}"))
  }

  function Names(tokens: seq<string>): (r: seq<string>)
    ensures |r| == |tokens|
    ensures forall i :: 0 <= i < |r| ==> r[i] == NameOf(tokens[i])
  {
    seq(|tokens|, i requires 0 <= i < |tokens| => NameOf(tokens[i]))
  }

  /** `extractVariables(text)` */
  function ExtractVariables(text: string): seq<string> {
    Dedupe(Names(Tokens(text)))
  }

  lemma {:induction false} ContainsInSuffix(s: string, k: nat, w: string)
    requires k <= |s| && Contains(s[k..], w)
    ensures Contains(s, w)
    decreases k
  {
    if k > 0 {
      assert s[1..][k - 1..] == s[k..];
      ContainsInSuffix(s[1..], k - 1, w);
    }
  }

  /** The token at the front of s is a non-empty run free of '}' that s
      starts with, braced. */
  lemma {:induction false} TokenAtFrontSpec(s: string)
    requires TokenAtFront(s)
    ensures var head := s[2..2 + RunLength(s[2..])];
            |head| >= 1 && '}' !in head && StartsWith(s, "{{" + head + "}}")
  {
    var n := RunLength(s[2..]);
    var head := s[2..2 + n];
    assert s[..4 + n] == "{{" + head + "}}";
    assert forall k :: 0 <= k < |head| ==> head[k] == s[2..][k];
  }

  /** Every token is a non-empty run free of '}' and occurs in the text
      between "{{" and "}}". */
  lemma {:induction false} TokensSpec(s: string)
    ensures forall t :: t in Tokens(s) ==> |t| >= 1 && '}' !in t && Contains(s, "{{" + t + "}}")
    decreases |s|
  {
    if |s| >= 2 {
      if TokenAtFront(s) {
        var n := RunLength(s[2..]);
        var rest := s[4 + n..];
        assert Tokens(s) == [s[2..2 + n]] + Tokens(rest);
        TokenAtFrontSpec(s);
        TokensSpec(rest);
        forall t | t in Tokens(rest) ensures Contains(s, "{{" + t + "}}") {
          ContainsInSuffix(s, 4 + n, "{{" + t + "}}");
        }
      } else {
        assert Tokens(s) == Tokens(s[1..]);
        TokensSpec(s[1..]);
        forall t | t in Tokens(s[1..]) ensures Contains(s, "{{" + t + "}}") {
          ContainsInSuffix(s, 1, "{{" + t + "}}");
        }
      }
    }
  }

  /** Text without "{{" has no tokens. */
  lemma {:induction false} NoOpeningNoTokens(s: string)
    requires !Contains(s, "{{")
    ensures Tokens(s) == []
    decreases |s|
  {
    if |s| >= 2 {
      assert !StartsWith(s, "{{");
      assert s[..2] == [s[0], s[1]];
      NoOpeningNoTokens(s[1..]);
    }
  }

  /** A closing "}}" after a run free of '}' strips to nothing. */
  lemma {:induction false} StripClosing(x: string)
    requires '}' !in x
    ensures StripBraces(x + "}}") == StripBraces(x)
    decreases |x|
  {
    var s := x + "}}";
    if |x| == 0 {
      assert s == "}}";
      assert s[2..] == [];
    } else if |x| == 1 {
      assert x[0] != '}' by {
        assert x[0] in x;
      }
      assert x == [x[0]];
      assert s[..2] == [x[0], '}'];
      assert s[..2] != "{{" && s[..2] != "}}";
      assert s[1..] == "}}";
      assert StripBraces("}}") == [] by {
        assert "}}"[..2] == "}}";
        assert "}}"[2..] == [];
      }
    } else if x[..2] == "{{" {
      assert s[..2] == x[..2];
      assert s[2..] == x[2..] + "}}";
      StripClosing(x[2..]);
    } else {
      assert s[..2] == x[..2];
      assert x[..2] != "}}" by {
        assert x[0] in x;
      }
      assert s[1..] == x[1..] + "}}";
      StripClosing(x[1..]);
    }
  }

  lemma {:induction false} StripKeepsCharacters(s: string)
    ensures forall c :: c in StripBraces(s) ==> c in s
    decreases |s|
  {
    if |s| >= 2 {
      if s[..2] == "{{" || s[..2] == "}}" {
        StripKeepsCharacters(s[2..]);
      } else {
        StripKeepsCharacters(s[1..]);
      }
    }
  }

  /** The name of a match is its captured run with every "{{" dropped, trimmed;
      it never contains '}'. */
  lemma {:induction false} NameOfSpec(inner: string)
    requires '}' !in inner
    ensures NameOf(inner) == Trim(StripBraces(inner))
    ensures '}' !in NameOf(inner)
  {
    var s := "{{" + inner + "}}";
    assert s[..2] == "{{";
    assert s[2..] == inner + "}}";
    StripClosing(inner);
    StripKeepsCharacters(inner);
    TrimSpec(StripBraces(inner));
    var t := StripBraces(inner);
    var a, b :| 0 <= a <= b <= |t| && Trim(t) == t[a..b] && AllWhite(t[..a]) && AllWhite(t[b..]);
    assert forall k :: 0 <= k < |t[a..b]| ==> t[a..b][k] == t[a + k];
  }

  /** What extractVariables returns: each name once, in order of first
      occurrence, every name coming from a `{{...}}` in the text and free of
      '}', and every match's name present. */
  lemma {:induction false} ExtractVariablesSpec(text: string)
    ensures NoDuplicates(ExtractVariables(text))
    ensures forall x :: x in ExtractVariables(text) ==>
              '}' !in x && exists t :: t in Tokens(text) && x == NameOf(t) && Contains(text, "{{" + t + "}}")
    ensures forall t :: t in Tokens(text) ==> NameOf(t) in ExtractVariables(text)
    ensures forall x :: x in ExtractVariables(text) ==> x in Names(Tokens(text))
    ensures var names := Names(Tokens(text)); var r := ExtractVariables(text);
            forall i, j :: 0 <= i < j < |r| ==> IndexOf(names, r[i]) < IndexOf(names, r[j])
  {
    DedupeSpec(Names(Tokens(text)));
    VariablesComeFromTokens(text);
    TokensGiveVariables(text);
  }

  lemma {:induction false} VariablesComeFromTokens(text: string)
    ensures forall x :: x in ExtractVariables(text) ==>
              '}' !in x && exists t :: t in Tokens(text) && x == NameOf(t) && Contains(text, "{{" + t + "}}")
  {
    var tokens := Tokens(text);
    var names := Names(tokens);
    DedupeSpec(names);
    TokensSpec(text);
    forall x | x in ExtractVariables(text)
      ensures '}' !in x && exists t :: t in tokens && x == NameOf(t) && Contains(text, "{{" + t + "}}")
    {
      var i :| 0 <= i < |names| && names[i] == x;
      NameOfSpec(tokens[i]);
      assert tokens[i] in tokens;
    }
  }

  lemma {:induction false} TokensGiveVariables(text: string)
    ensures forall t :: t in Tokens(text) ==> NameOf(t) in ExtractVariables(text)
  {
    var tokens := Tokens(text);
    var names := Names(tokens);
    DedupeSpec(names);
    forall t | t in tokens ensures NameOf(t) in ExtractVariables(text) {
      var i :| 0 <= i < |tokens| && tokens[i] == t;
      assert names[i] in names;
    }
  }

  /** `if (!matches) return []`: text without "{{" has no variables. */
  lemma {:induction false} NoTokensNoVariables(text: string)
    requires !Contains(text, "{{")
    ensures ExtractVariables(text) == []
  {
    NoOpeningNoTokens(text);
  }

  /** "{{}}" is not a match: the run between the braces must be non-empty. */
  lemma {:induction false} EmptyBracesNoVariable()
    ensures ExtractVariables("{{}}") == []
  {
    assert RunLength("}}") == 0;
    assert Tokens("}}") == [] && Tokens("}") == [];
    assert Tokens("{}}") == [];
  }

  lemma {:induction false} StripName(w: string)
    requires '{' !in w && '}' !in w
    ensures StripBraces("{{" + w + "}}") == w
  {
    var s := "{{" + w + "}}";
    assert s[..2] == "{{";
    assert s[2..] == w + "}}";
    StripClosing(w);
    StripPlain(w);
  }

  lemma {:induction false} StripPlain(w: string)
    requires '{' !in w && '}' !in w
    ensures StripBraces(w) == w
    decreases |w|
  {
    if |w| >= 2 {
      assert w[0] in w;
      assert w[..2] != "{{" && w[..2] != "}}";
      StripPlain(w[1..]);
      assert w == [w[0]] + w[1..];
    }
  }

  /** A name as authors write it: non-empty, no braces, no white space at
      either end. */
  predicate PlainName(w: string) {
    |w| >= 1 && '{' !in w && '}' !in w && !IsWhite(w[0]) && !IsWhite(w[|w| - 1])
  }

  lemma {:induction false} TrimPadded(w: string)
    requires PlainName(w)
    ensures Trim(w) == w
    ensures Trim(" " + w + " ") == w
  {
    var p := " " + w + " ";
    assert p[1..] == w + " ";
    assert TrimStart(p) == TrimStart(w + " ");
    assert (w + " ")[0] == w[0];
    assert TrimStart(w + " ") == w + " ";
    assert (w + " ")[..|w|] == w;
    assert TrimEnd(w + " ") == TrimEnd(w);
  }

  /** Spaced and unspaced forms of one name collapse into a single variable. */
  lemma {:induction false} SpacedDuplicatesCollapse(w: string)
    requires PlainName(w)
    ensures ExtractVariables("{{ " + w + " }}" + "{{" + w + "}}") == [w]
  {
    var padded := " " + w + " ";
    assert "{{ " + w + " }}" + "{{" + w + "}}" == "{{" + padded + "}}" + ("{{" + w + "}}");
    assert '}' !in padded;
    TokenThenRest(padded, "{{" + w + "}}");
    OneToken(w);
    assert Tokens("{{" + padded + "}}" + ("{{" + w + "}}")) == [padded, w];
    StripName(padded);
    StripName(w);
    TrimPadded(w);
    var names := Names([padded, w]);
    assert names == [w, w];
    assert Dedupe([w, w]) == Dedupe([w]) + [];
    assert Dedupe([w]) == Dedupe([]) + [w];
  }

  lemma {:induction false} TokenThenRest(w: string, rest: string)
    requires |w| >= 1 && '}' !in w
    ensures Tokens("{{" + w + "}}" + rest) == [w] + Tokens(rest)
  {
    var s := "{{" + w + "}}" + rest;
    assert s[2..] == w + "}" + ("}" + rest);
    RunLengthUpTo(w, "}" + rest);
    var n := RunLength(s[2..]);
    assert n == |w|;
    assert s[0] == '{' && s[1] == '{';
    assert s[3 + n] == '}';
    assert TokenAtFront(s);
    assert s[2..2 + n] == w;
    assert s[4 + n..] == rest;
  }

  lemma {:induction false} OneToken(w: string)
    requires |w| >= 1 && '}' !in w
    ensures Tokens("{{" + w + "}}") == [w]
  {
    TokenThenRest(w, "");
    assert "{{" + w + "}}" + "" == "{{" + w + "}}";
  }


  // ---------------------------------------------------------------------------
  // the edit form
  // ---------------------------------------------------------------------------

  datatype TemplateForm = TemplateForm(
    eventId: string, channelId: string, recipientType: RecipientType, subject: string,
    body: string, variables: seq<string>, isActive: bool)

  /** The form's variables are those of its body followed directly by its subject. */
  ghost predicate VariablesInStep(f: TemplateForm) {
    f.variables == ExtractVariables(f.body + f.subject)
  }

  /** `handleBodyChange(body)` */
  function HandleBodyChange(f: TemplateForm, body: string): TemplateForm {
    f.(body := body, variables := ExtractVariables(body + f.subject))
  }

  /** `handleSubjectChange(subject)` */
  function HandleSubjectChange(f: TemplateForm, subject: string): TemplateForm {
    f.(subject := subject, variables := ExtractVariables(f.body + subject))
  }

  /** Each edit handler leaves the variables in step with the text, whatever
      the state before, and the two edits commute. */
  lemma {:induction false} EditsKeepVariablesInStep(f: TemplateForm, body: string, subject: string)
    ensures VariablesInStep(HandleBodyChange(f, body))
    ensures VariablesInStep(HandleSubjectChange(f, subject))
    ensures HandleBodyChange(HandleSubjectChange(f, subject), body) ==
            HandleSubjectChange(HandleBodyChange(f, body), subject)
    ensures HandleBodyChange(f, body).subject == f.subject
    ensures HandleSubjectChange(f, subject).body == f.body
  {
  }

  /** Text without '}' has no tokens. */
  lemma {:induction false} NoClosingNoTokens(s: string)
    requires '}' !in s
    ensures Tokens(s) == []
    decreases |s|
  {
    if |s| >= 2 {
      assert forall c :: c in s[1..] ==> c in s;
      NoClosingNoTokens(s[1..]);
    }
  }

  /** Text without '{' has no tokens. */
  lemma {:induction false} NoBraceNoTokens(s: string)
    requires '{' !in s
    ensures Tokens(s) == []
    decreases |s|
  {
    if |s| >= 2 {
      assert s[0] in s;
      assert forall c :: c in s[1..] ==> c in s;
      NoBraceNoTokens(s[1..]);
    }
  }

  /** Body and subject are joined with no separator, so a token may straddle
      them: a body ending in "{{" plus the start of a name and a subject
      starting with the rest of it and "}}" have no variable each, yet the form
      records one. */
  lemma {:induction false} TokenAcrossBodyAndSubject(a: string, b: string)
    requires PlainName(a + b) && |a| >= 1 && |b| >= 1
    ensures ExtractVariables("{{" + a) == [] && ExtractVariables(b + "}}") == []
    ensures ExtractVariables("{{" + a + (b + "}}")) == [a + b]
  {
    var w := a + b;
    assert forall c :: c in a ==> c in w;
    assert forall c :: c in b ==> c in w;
    NoClosingNoTokens("{{" + a);
    NoBraceNoTokens(b + "}}");
    assert "{{" + a + (b + "}}") == "{{" + w + "}}";
    OneToken(w);
    StripName(w);
    TrimPadded(w);
    assert Names([w]) == [w];
    assert Dedupe([w]) == Dedupe([]) + [w];
  }

  // ---------------------------------------------------------------------------
  // renderPreview
  // ---------------------------------------------------------------------------

  /** `` `{{${variable}}}` `` with the name taken literally. */
  function Placeholder(v: string): (p: string)
    ensures |p| == |v| + 4
  {
    "{{" + v + "}}"
  }

  /** `sampleData[variable] || `[${variable}]``: an absent or empty sample
      value shows the name in square brackets. */
  function SampleValue(sample: map<string, string>, v: string): string {
    if v in sample && sample[v] != "" then sample[v] else "[" + v + "]"
  }

  /** The replacements renderPreview makes, in the order of template.variables. */
  function PreviewTable(vars: seq<string>, sample: map<string, string>): (table: seq<(string, string)>)
    ensures |table| == |vars|
    ensures forall k :: 0 <= k < |table| ==> |table[k].0| > 0
    ensures forall k :: 0 <= k < |vars| ==> table[k].0 == "{{" + vars[k] + "}}"
    ensures forall k :: 0 <= k < |vars| ==>
              table[k].1 == if vars[k] in sample && sample[vars[k]] != "" then sample[vars[k]] else "[" + vars[k] + "]"
  {
    seq(|vars|, k requires 0 <= k < |vars| => (Placeholder(vars[k]), SampleValue(sample, vars[k])))
  }

  datatype Preview = Preview(subject: string, body: string)

  /** `renderPreview(template)` with the page's sample data. */
  method RenderPreview(template: MessageTemplate, sample: map<string, string>) returns (r: Preview)
    ensures r.body == ReplaceEach(template.body, PreviewTable(template.variables, sample))
    ensures r.subject == ReplaceEach(template.subject.GetOr(""), PreviewTable(template.variables, sample))
  {
    var table := PreviewTable(template.variables, sample);
    var previewBody := template.body;
    var previewSubject := template.subject.GetOr("");
    var k := 0;
    while k < |template.variables|
      invariant 0 <= k <= |template.variables|
      invariant previewBody == ReplaceEach(template.body, table[..k])
      invariant previewSubject == ReplaceEach(template.subject.GetOr(""), table[..k])
    {
      var variable := template.variables[k];
      var value := if variable in sample && sample[variable] != "" then sample[variable] else "[" + variable + "]";
      previewBody := ReplaceAll(previewBody, "{{" + variable + "}}", value);
      previewSubject := ReplaceAll(previewSubject, "{{" + variable + "}}", value);
      assert table[..k + 1][..k] == table[..k];
      k := k + 1;
    }
    assert table[..k] == table;
    r := Preview(previewSubject, previewBody);
  }

  /** Text holding none of the listed placeholders, such as a token whose name
      is not listed or is written with spaces, comes through verbatim; a
      template without a subject previews an empty subject. */
  lemma {:induction false} PreviewLeavesUnlisted(text: string, vars: seq<string>, sample: map<string, string>)
    requires forall v :: v in vars ==> !Contains(text, Placeholder(v))
    ensures ReplaceEach(text, PreviewTable(vars, sample)) == text
    ensures ReplaceEach("", PreviewTable(vars, sample)) == ""
  {
    var table := PreviewTable(vars, sample);
    forall k | 0 <= k < |table| ensures !Contains(text, table[k].0) && !Contains("", table[k].0) {
      assert vars[k] in vars;
      ShortNeverContains("", table[k].0);
    }
    ReplaceEachUntouched(text, table);
    ReplaceEachUntouched("", table);
  }

  /** With a single listed variable, every leftmost occurrence of its
      placeholder is replaced by the sample value and the text between them is
      kept. */
  lemma {:induction false} PreviewOneVariable(text: string, v: string, sample: map<string, string>)
    ensures ReplaceEach(text, PreviewTable([v], sample)) ==
            Join(Split(text, Placeholder(v)), SampleValue(sample, v))
  {
    var table := PreviewTable([v], sample);
    assert table[..0] == [];
    ReplaceAllIsSplitJoin(text, Placeholder(v), SampleValue(sample, v));
  }
}
