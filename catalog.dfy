/**
  The static template catalogues of the Telegram website flow (index.js) and the
  normalisation a typed template name goes through before it is looked up.
*/
module Catalog {
  import opened Text

  /** `templateList`: every template the website flow accepts. */
  const TemplateList: seq<string> := [
    "blog", "portfolio", "business", "simple", "cyberpunk", "elonx", "aitech",
    "futurify", "startupverse", "space-tech", "neonwave", "darkfusion", "quantumx",
    "minimalist-pro"
  ]

  /** `premiumTemplates`: the templates advertised as premium. */
  const PremiumTemplates: seq<string> := ["cyberpunk", "elonx", "aitech", "futurify", "space-tech"]

  /** The reply `choice` after `.trim().toLowerCase()`. */
  function NormalizeChoice(text: string): string {
    Lower(Trim(text))
  }

  /** `list.includes(x)`, as a scan from the front. */
  predicate Includes(list: seq<string>, x: string)
    decreases |list|
  {
    list != [] && (list[0] == x || Includes(list[1..], x))
  }

  lemma {:induction false} IncludesIsMembership(list: seq<string>, x: string)
    ensures Includes(list, x) <==> x in list
    decreases |list|
  {
    if list != [] {
      IncludesIsMembership(list[1..], x);
      assert list == [list[0]] + list[1..];
    }
  }

  /** `templateList.includes(choice)` */
  predicate IsTemplate(choice: string) {
    Includes(TemplateList, choice)
  }

  /** Characters a catalogue name is spelled with: lower-case ASCII letters, digits and '-'. */
  predicate IsNameChar(c: char) {
    ('a' <= c <= 'z') || ('0' <= c <= '9') || c == '-'
  }

  predicate IsPlainName(t: string) {
    t != [] && forall i :: 0 <= i < |t| ==> IsNameChar(t[i])
  }

  /** Every premium template is also a template the website flow accepts. */
  lemma PremiumAreTemplates()
    ensures forall p :: p in PremiumTemplates ==> IsTemplate(p)
  {
    forall p | p in PremiumTemplates ensures IsTemplate(p) {
      IncludesIsMembership(TemplateList, p);
    }
  }

  lemma CatalogNamesArePlain()
    ensures forall t :: t in TemplateList ==> IsPlainName(t)
  {
  }

  lemma {:induction false} LeadingSpacesOfPadded(pre: string, u: string)
    requires forall i :: 0 <= i < |pre| ==> IsJsSpace(pre[i])
    requires u != [] && !IsJsSpace(u[0])
    ensures LeadingSpaces(pre + u) == |pre|
  {
    if pre != [] {
      assert (pre + u)[1..] == pre[1..] + u;
      LeadingSpacesOfPadded(pre[1..], u);
    }
  }

  lemma {:induction false} TrailingSpacesOfPadded(u: string, post: string)
    requires forall i :: 0 <= i < |post| ==> IsJsSpace(post[i])
    requires u != [] && !IsJsSpace(u[|u| - 1])
    ensures TrailingSpaces(u + post) == |post|
  {
    if post != [] {
      var s := u + post;
      assert s[..|s| - 1] == u + post[..|post| - 1];
      TrailingSpacesOfPadded(u, post[..|post| - 1]);
    }
  }

  /** Trimming a padded word gives the word back. */
  lemma TrimPadded(u: string, pre: string, post: string)
    requires u != [] && !IsJsSpace(u[0]) && !IsJsSpace(u[|u| - 1])
    requires forall i :: 0 <= i < |pre| ==> IsJsSpace(pre[i])
    requires forall i :: 0 <= i < |post| ==> IsJsSpace(post[i])
    ensures Trim(pre + u + post) == u
  {
    var s := pre + u + post;
    assert s == pre + (u + post);
    LeadingSpacesOfPadded(pre, u + post);
    assert s[|pre|..] == u + post;
    TrailingSpacesOfPadded(u, post);
    assert s[|pre|..|s| - |post|] == u;
  }

  /** A character that folds to a name character is not a space. */
  lemma FoldedNameCharIsNotSpace(c: char, d: char)
    requires LowerChar(c) == d && IsNameChar(d)
    ensures !IsJsSpace(c)
  {
  }

  /** A plain name typed in any mix of upper and lower case, with any spaces
      around it, normalises to that name. */
  lemma NormalizePadded(t: string, u: string, pre: string, post: string)
    requires IsPlainName(t)
    requires Lower(u) == t
    requires forall i :: 0 <= i < |pre| ==> IsJsSpace(pre[i])
    requires forall i :: 0 <= i < |post| ==> IsJsSpace(post[i])
    ensures NormalizeChoice(pre + u + post) == t
  {
    assert |u| == |t| > 0;
    FoldedNameCharIsNotSpace(u[0], t[0]);
    FoldedNameCharIsNotSpace(u[|u| - 1], t[|t| - 1]);
    TrimPadded(u, pre, post);
  }

  /** So the template step accepts a catalogue name whatever its case and padding. */
  lemma AcceptsAnyCaseAndPadding(t: string, u: string, pre: string, post: string)
    requires t in TemplateList
    requires Lower(u) == t
    requires forall i :: 0 <= i < |pre| ==> IsJsSpace(pre[i])
    requires forall i :: 0 <= i < |post| ==> IsJsSpace(post[i])
    ensures IsTemplate(NormalizeChoice(pre + u + post))
  {
    CatalogNamesArePlain();
    NormalizePadded(t, u, pre, post);
    IncludesIsMembership(TemplateList, t);
  }
}
