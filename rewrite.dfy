/**
 * Pretty detail URLs: the path `paf_get_pet_detail_url` builds for a pet, the rewrite rule
 * `^pet/([0-9]+)/?$` that maps such a path back to the `pet_id` query variable, and the
 * registration of that variable.
 */
module Rewrite {
  import opened Wrappers
  import opened Php

  const QueryVar := "pet_id"
  const PetPrefix := "pet/"

  /** The site-relative path of a pet's detail page. */
  function DetailPath(petId: string): string {
    "/" + PetPrefix + petId + "/"
  }

  /** `paf_get_pet_detail_url`: the detail path made absolute by `home_url`. */
  function DetailUrl(wp: Wp, petId: string): string {
    wp.homeUrl(DetailPath(petId))
  }

  /** A pet id the rule can capture: one or more ASCII digits. */
  predicate DigitId(id: string) {
    id != [] && AllDigits(id)
  }

  /** PCRE's `$` (without the `D` modifier) also matches just before a final newline, so one is ignored. */
  function WithoutFinalNewline(path: string): (body: string)
    ensures body == path || path == body + "\n"
  {
    if path != [] && path[|path| - 1] == '\n' then path[..|path| - 1] else path
  }

  /** `pet/`, then digits (captured), then an optional `/`, making up all of `body`. */
  function MatchPetBody(body: string): (m: Option<string>)
    ensures m.Some? ==> DigitId(m.value) && (body == PetPrefix + m.value || body == PetPrefix + m.value + "/")
  {
    if |body| < |PetPrefix| || body[..|PetPrefix|] != PetPrefix then None
    else
      var rest := body[|PetPrefix|..];
      var k := DigitPrefix(rest);
      assert body == PetPrefix + rest;
      if k == 0 then None
      else if k == |rest| then Some(rest)
      else if k == |rest| - 1 && rest[k] == '/' then
        assert rest == rest[..k] + "/";
        Some(rest[..k])
      else None
  }

  /**
   * The rewrite rule `^pet/([0-9]+)/?$` applied to a request path (WordPress matches it without
   * the leading slash): the captured digits when `pet/`, digits and an optional `/` make up the
   * whole path, or all of it but a final newline, and nothing otherwise.
   */
  function MatchPetRule(path: string): (m: Option<string>)
    ensures m.Some? ==>
      && DigitId(m.value)
      && (|| path == PetPrefix + m.value || path == PetPrefix + m.value + "/"
          || path == PetPrefix + m.value + "\n" || path == PetPrefix + m.value + "/\n")
  {
    MatchPetBody(WithoutFinalNewline(path))
  }

  /** The digit prefix of a digit string, optionally followed by `/`, is the whole digit string. */
  lemma {:induction false} DigitPrefixOfId(id: string, tail: string)
    requires AllDigits(id) && (tail == "" || tail == "/")
    ensures DigitPrefix(id + tail) == |id|
  {
    if id != [] {
      assert (id + tail)[0] == id[0];
      assert (id + tail)[1..] == id[1..] + tail;
      DigitPrefixOfId(id[1..], tail);
    }
  }

  /** The digit prefix stops at the first non-digit. */
  lemma {:induction false} DigitPrefixAtMost(s: string, j: nat)
    requires j < |s| && !IsDigit(s[j])
    ensures DigitPrefix(s) <= j
  {
    if j > 0 && IsDigit(s[0]) {
      assert s[1..][j - 1] == s[j];
      DigitPrefixAtMost(s[1..], j - 1);
    }
  }

  /** `pet/`, digits and an optional slash are matched, and the digits captured. */
  lemma MatchPetBodyComplete(id: string)
    requires DigitId(id)
    ensures MatchPetBody(PetPrefix + id) == Some(id)
    ensures MatchPetBody(PetPrefix + id + "/") == Some(id)
  {
    DigitPrefixOfId(id, "");
    DigitPrefixOfId(id, "/");
    assert (PetPrefix + id)[|PetPrefix|..] == id;
    assert (PetPrefix + id + "/")[|PetPrefix|..] == id + "/";
    assert (id + "/")[..|id|] == id;
  }

  /** Every path of the rule's form is matched, with or without a final newline, and captures its own digits. */
  lemma MatchPetRuleComplete(id: string)
    requires DigitId(id)
    ensures MatchPetRule(PetPrefix + id) == Some(id)
    ensures MatchPetRule(PetPrefix + id + "/") == Some(id)
    ensures MatchPetRule(PetPrefix + id + "\n") == Some(id)
    ensures MatchPetRule(PetPrefix + id + "/\n") == Some(id)
  {
    MatchPetBodyComplete(id);
    assert WithoutFinalNewline(PetPrefix + id) == PetPrefix + id;
    assert WithoutFinalNewline(PetPrefix + id + "/") == PetPrefix + id + "/";
    assert WithoutFinalNewline(PetPrefix + id + "\n") == PetPrefix + id;
    assert WithoutFinalNewline(PetPrefix + id + "/\n") == PetPrefix + id + "/";
  }

  /** Round trip: the rule maps the detail path of an all-digit id back to that id. */
  lemma DetailPathRoundTrip(id: string)
    requires DigitId(id)
    ensures MatchPetRule(DetailPath(id)[1..]) == Some(id)
  {
    assert DetailPath(id)[1..] == PetPrefix + id + "/";
    MatchPetRuleComplete(id);
  }

  /**
   * Any id the rule captures is one whose detail path is the requested path, up to the optional
   * final slash and the newline `$` lets through.
   */
  lemma MatchedPathIsDetailPath(path: string)
    requires MatchPetRule(path).Some?
    ensures var id := MatchPetRule(path).value; var body := WithoutFinalNewline(path);
      DetailPath(id)[1..] == body || DetailPath(id)[1..] == body + "/"
  {
    var id := MatchPetRule(path).value;
    assert DetailPath(id)[1..] == PetPrefix + id + "/";
  }

  /** A detail path whose id is not all digits is not matched by the rule. */
  lemma NonDigitIdIsRejected(id: string)
    requires !DigitId(id)
    ensures MatchPetRule(DetailPath(id)[1..]) == None
  {
    var path := DetailPath(id)[1..];
    var rest := id + "/";
    assert path == PetPrefix + rest;
    assert WithoutFinalNewline(path) == path;
    assert path[..|PetPrefix|] == PetPrefix && path[|PetPrefix|..] == rest;
    if id == [] {
      assert DigitPrefix(rest) == 0;
    } else {
      var j :| 0 <= j < |id| && !IsDigit(id[j]);
      assert rest[j] == id[j];
      DigitPrefixAtMost(rest, j);
    }
  }

  /** `paf_register_query_vars`: `pet_id` is appended and the existing variables stay, in order. */
  function RegisterQueryVars(vars: seq<string>): (r: seq<string>)
    ensures |r| == |vars| + 1 && r[..|vars|] == vars && r[|vars|] == QueryVar
    ensures QueryVar in r
  {
    vars + [QueryVar]
  }
}
