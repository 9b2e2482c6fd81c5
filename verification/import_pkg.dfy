/**
 `getImportPkg`: the package path the grouper classifies one line of an
 import block by.
 */
module ImportPkg {

  import opened Text

  /** Where the path text begins: at the first quote when that quote is not in
      the first column, otherwise at the start of the line. */
  function PkgStart(a: Line): (from: nat)
    ensures from <= |a|
    ensures from == 0 <==> ('"' !in a || a[0] == '"')
    ensures from > 0 ==> from < |a| && a[from] == '"' && '"' !in a[..from]
  {
    var index := IndexOf(a, '"');
    // bytes.Index gives -1 when there is no quote; that case and index 0 both
    // take the whole line, which is a[0..]
    if index > 0 then index else 0
  }

  /** `getImportPkg`: the text from `PkgStart` on, whitespace-trimmed and then
      stripped of surrounding quotes. */
  function GetImportPkg(a: Line): (pkg: string)
    ensures |pkg| <= |a|
    ensures pkg == [] || (pkg[0] != '"' && pkg[|pkg| - 1] != '"')
    ensures '"' !in a ==> pkg == TrimSpace(a)
  {
    var from := PkgStart(a);
    assert '"' !in a ==> a[from..] == a;
    TrimWithout(a[from..], Whitespace, '"');
    TrimQuotes(TrimSpace(a[from..]))
  }

  /** The well-formed spec line `<lead>"<path>"<trail>`, where the lead (an
      indent, an alias or both) holds no quote and the trail is whitespace,
      yields exactly the quoted path, whether or not the lead is empty. */
  lemma SpecLinePath(lead: string, path: string, trail: string)
    requires '"' !in lead && '"' !in path
    requires AllSatisfy(trail, Whitespace)
    ensures GetImportPkg(lead + "\"" + path + "\"" + trail) == path
  {
    var quoted := "\"" + path + "\"";
    var a := lead + "\"" + path + "\"" + trail;
    assert a == lead + (quoted + trail);
    QuotedPathStart(lead, quoted + trail);
    TrimSpaceQuoted(quoted, trail);
    TrimQuotesOf(path);
  }

  lemma TrimSpaceQuoted(quoted: string, trail: string)
    requires quoted != [] && quoted[0] == '"' && quoted[|quoted| - 1] == '"'
    requires AllSatisfy(trail, Whitespace)
    ensures TrimSpace(quoted + trail) == quoted
  {
    assert quoted + trail == [] + quoted + trail;
    TrimOf([], quoted, trail, Whitespace);
  }

  lemma TrimQuotesOf(path: string)
    requires '"' !in path
    ensures TrimQuotes("\"" + path + "\"") == path
  {
    assert path == [] || (!Quote.Has(path[0]) && !Quote.Has(path[|path| - 1])) by {
      if path != [] { assert path[0] in path && path[|path| - 1] in path; }
    }
    TrimOf("\"", path, "\"", Quote);
  }

  /** The path starts at the first quote of the line, wherever that is. */
  lemma QuotedPathStart(lead: string, rest: string)
    requires '"' !in lead && rest != [] && rest[0] == '"'
    ensures (lead + rest)[PkgStart(lead + rest)..] == rest
  {
    var a := lead + rest;
    assert a[|lead|] == '"';
    assert a[..|lead|] == lead;
    var from := PkgStart(a);
    assert from == |lead|;
  }

  /** A line without any quote, `<spaces><body><spaces>`, yields its trimmed
      body unchanged, alias and all (the `alias byte` case). */
  lemma UnquotedLine(lead: string, body: string, trail: string)
    requires AllSatisfy(lead, Whitespace) && AllSatisfy(trail, Whitespace)
    requires '"' !in body
    requires body == [] || (!IsSpace(body[0]) && !IsSpace(body[|body| - 1]))
    ensures GetImportPkg(lead + body + trail) == body
  {
    var a := lead + body + trail;
    forall k | 0 <= k < |a| ensures a[k] != '"' {
      if k < |lead| { assert a[k] == lead[k]; }
      else if k < |lead| + |body| { assert a[k] == body[k - |lead|]; }
      else { assert a[k] == trail[k - |lead| - |body|]; }
    }
    TrimOf(lead, body, trail, Whitespace);
  }

  /** A blank line, in particular a separator line, yields the empty path. */
  lemma BlankLineHasEmptyPkg(a: Line)
    requires AllSatisfy(a, Whitespace)
    ensures GetImportPkg(a) == ""
  {
    assert a == a + "" + "";
    UnquotedLine(a, "", "");
  }

  // The cases of `Test_getImportPkg`, one lemma each.

  /** An alias in front of the quoted path is dropped. */
  lemma AliasedPathExample(a: Line)
    requires a == "alias \"byte\""
    ensures GetImportPkg(a) == "byte"
  {
    var alias, name, none := "alias ", "byte", "";
    assert a == alias + "\"" + name + "\"" + none;
    SpecLinePath(alias, name, none);
  }

  /** Without quotes the alias is kept as part of the result. */
  lemma UnquotedAliasExample(a: Line)
    requires a == "alias byte"
    ensures GetImportPkg(a) == "alias byte"
  {
    var none := "";
    assert a == none + a + none;
    UnquotedLine(none, a, none);
  }

  /** A quote in the first column is stripped from both ends. */
  lemma BareQuotedPathExample(a: Line)
    requires a == "\"byte\""
    ensures GetImportPkg(a) == "byte"
  {
    var name, none := "byte", "";
    assert a == none + "\"" + name + "\"" + none;
    SpecLinePath(none, name, none);
  }

  /** An indented quoted path, the usual shape of a line inside `import (`. */
  lemma IndentedPathExample(a: Line)
    requires a == "\t\"byte\""
    ensures GetImportPkg(a) == "byte"
  {
    var tab, name, none := "\t", "byte", "";
    assert a == tab + "\"" + name + "\"" + none;
    SpecLinePath(tab, name, none);
  }

  /** A bare word comes back as it is. */
  lemma BareWordExample(a: Line)
    requires a == "byte"
    ensures GetImportPkg(a) == "byte"
  {
    var none := "";
    assert a == none + a + none;
    UnquotedLine(none, a, none);
  }
}
