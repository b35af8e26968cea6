/**
 * The pure part of starting a process by name: deciding whether the browser
 * must first go to the Control Room process list, deriving that list's
 * address from the current one, and building the selector for the process row.
 */
module Launch {
  import opened Wrappers
  import opened Strings

  /** The path ending that marks the process list page. */
  const ProcessesSuffix: string := "/processes"

  /** Python raises IndexError when the split address has too few pieces. */
  datatype LaunchError = IndexError

  /**
   * The process list address of workspace `workspace` of organization
   * `organization` on `host`: always https, always a process list, and, when
   * the three names hold no `/`, split back into exactly those names.
   */
  function ProcessesUrl(host: string, organization: string, workspace: string): (url: string)
    ensures StartsWith(url, "https://") && EndsWith(url, ProcessesSuffix)
    ensures '/' !in host && '/' !in organization && '/' !in workspace ==>
              Split(url, '/') == ["https:", "", host, organization, workspace, "processes"]
  {
    var url := "https://" + host + "/" + organization + "/" + workspace + "/processes";
    assert url[..8] == "https://";
    assert url[|url| - 10..] == ProcessesSuffix;
    var pieces := ["https:", "", host, organization, workspace, "processes"];
    assert '/' !in host && '/' !in organization && '/' !in workspace ==> Split(url, '/') == pieces by {
      if '/' !in host && '/' !in organization && '/' !in workspace {
        ProcessesUrlIsJoin(host, organization, workspace);
        assert forall i :: 0 <= i < |pieces| ==> '/' !in pieces[i];
        SplitJoin(pieces, '/');
      }
    }
    url
  }

  /**
   * Where to navigate before looking for the process row, given the current
   * page address: `Success(None)` when the page is already a process list,
   * `Success(Some(target))` built from pieces 2, 3 and 4 of the address split
   * on `/`, and `Failure(IndexError)` when the split has fewer than five pieces.
   */
  function DeriveProcessesUrl(current: string): (r: Result<Option<string>, LaunchError>)
    ensures r == Success(None) <==> EndsWith(current, ProcessesSuffix)
    ensures r.Failure? <==> !EndsWith(current, ProcessesSuffix) && |Split(current, '/')| < 5
    ensures r.Success? && r.value.Some? ==>
              StartsWith(r.value.value, "https://") && EndsWith(r.value.value, ProcessesSuffix)
  {
    if EndsWith(current, ProcessesSuffix) then Success(None)
    else
      var parts := Split(current, '/');
      if |parts| < 5 then Failure(IndexError)
      else
        Success(Some(ProcessesUrl(parts[2], parts[3], parts[4])))
  }

  /** The formatted address as a `/`-join: scheme piece, empty piece, then host, organization, workspace, `processes`. */
  lemma ProcessesUrlIsJoin(host: string, organization: string, workspace: string)
    ensures "https://" + host + "/" + organization + "/" + workspace + "/processes" ==
            Join(["https:", "", host, organization, workspace, "processes"], '/')
  {
    var p5 := ["processes"];
    var p4 := [workspace] + p5;
    var p3 := [organization] + p4;
    var p2 := [host] + p3;
    var p1 := [""] + p2;
    var p0 := ["https:"] + p1;
    assert Join(p4, '/') == workspace + "/" + "processes" by { assert p4[1..] == p5; }
    assert Join(p3, '/') == organization + "/" + Join(p4, '/') by { assert p3[1..] == p4; }
    assert Join(p2, '/') == host + "/" + Join(p3, '/') by { assert p2[1..] == p3; }
    assert Join(p1, '/') == "" + "/" + Join(p2, '/') by { assert p1[1..] == p2; }
    assert Join(p0, '/') == "https:" + "/" + Join(p1, '/') by { assert p0[1..] == p1; }
    assert p0 == ["https:", "", host, organization, workspace, "processes"];
  }

  /**
   * A derived target splits into exactly `https:`, the empty piece, and pieces 2, 3, 4 of
   * the current address, then `processes`: host, organization and workspace
   * are kept, the scheme becomes https whatever it was, and every piece from
   * index 5 on is dropped.
   */
  lemma DerivedTargetKeepsFields(current: string)
    requires !EndsWith(current, ProcessesSuffix) && |Split(current, '/')| >= 5
    ensures var parts := Split(current, '/');
            DeriveProcessesUrl(current) == Success(Some(ProcessesUrl(parts[2], parts[3], parts[4]))) &&
            Split(DeriveProcessesUrl(current).value.value, '/') ==
              ["https:", "", parts[2], parts[3], parts[4], "processes"]
  {
    var parts := Split(current, '/');
    assert '/' !in parts[2] && '/' !in parts[3] && '/' !in parts[4];
  }

  /** Deriving again from a derived target asks for no further navigation. */
  lemma DeriveIsIdempotent(current: string)
    requires DeriveProcessesUrl(current).Success? && DeriveProcessesUrl(current).value.Some?
    ensures DeriveProcessesUrl(DeriveProcessesUrl(current).value.value) == Success(None)
  {
  }

  /** An address of the shape `scheme//host/organization/workspace/rest`, split on `/`. */
  lemma {:induction false} SplitConsoleAddress(scheme: string, host: string, organization: string,
                                               workspace: string, rest: string)
    requires '/' !in scheme && '/' !in host && '/' !in organization && '/' !in workspace
    ensures Split(scheme + "//" + host + "/" + organization + "/" + workspace + "/" + rest, '/') ==
            [scheme, "", host, organization, workspace] + Split(rest, '/')
  {
    var s4 := workspace + "/" + rest;
    var s3 := organization + "/" + s4;
    var s2 := host + "/" + s3;
    var s1 := "" + "/" + s2;
    var s0 := scheme + "/" + s1;
    assert s0 == scheme + "//" + host + "/" + organization + "/" + workspace + "/" + rest;
    SplitAfterPiece(workspace, '/', rest);
    SplitAfterPiece(organization, '/', s4);
    SplitAfterPiece(host, '/', s3);
    SplitAfterPiece("", '/', s2);
    SplitAfterPiece(scheme, '/', s1);
  }

  /**
   * From any page below a workspace, `scheme//host/organization/workspace/rest`
   * that is not already a process list, the target is that workspace's process
   * list on https, whatever the scheme and whatever follows the workspace.
   */
  lemma DeriveFromWorkspacePage(scheme: string, host: string, organization: string,
                                workspace: string, rest: string)
    requires '/' !in scheme && '/' !in host && '/' !in organization && '/' !in workspace
    requires !EndsWith(scheme + "//" + host + "/" + organization + "/" + workspace + "/" + rest, ProcessesSuffix)
    ensures DeriveProcessesUrl(scheme + "//" + host + "/" + organization + "/" + workspace + "/" + rest) ==
            Success(Some(ProcessesUrl(host, organization, workspace)))
  {
    SplitConsoleAddress(scheme, host, organization, workspace, rest);
  }

  /**
   * From the workspace root `scheme//host/organization/workspace` itself
   * (five pieces, nothing after the workspace), the target is that
   * workspace's process list on https.
   */
  lemma {:induction false} DeriveFromWorkspaceRoot(scheme: string, host: string, organization: string, workspace: string)
    requires '/' !in scheme && '/' !in host && '/' !in organization && '/' !in workspace
    requires !EndsWith(scheme + "//" + host + "/" + organization + "/" + workspace, ProcessesSuffix)
    ensures DeriveProcessesUrl(scheme + "//" + host + "/" + organization + "/" + workspace) ==
            Success(Some(ProcessesUrl(host, organization, workspace)))
  {
    var s3 := organization + "/" + workspace;
    var s2 := host + "/" + s3;
    var s1 := "" + "/" + s2;
    var s0 := scheme + "/" + s1;
    assert s0 == scheme + "//" + host + "/" + organization + "/" + workspace;
    SplitNoSeparator(workspace, '/');
    SplitAfterPiece(organization, '/', workspace);
    SplitAfterPiece(host, '/', s3);
    SplitAfterPiece("", '/', s2);
    SplitAfterPiece(scheme, '/', s1);
  }

  /**
   * An address with no workspace piece, `scheme//host/organization` (the
   * organization may be empty), that is not a process list has too few
   * pieces: deriving from it raises IndexError.
   */
  lemma {:induction false} DeriveFailsWithoutWorkspace(scheme: string, host: string, organization: string)
    requires '/' !in scheme && '/' !in host && '/' !in organization
    requires !EndsWith(scheme + "//" + host + "/" + organization, ProcessesSuffix)
    ensures DeriveProcessesUrl(scheme + "//" + host + "/" + organization) == Failure(IndexError)
  {
    var s2 := host + "/" + organization;
    var s1 := "" + "/" + s2;
    var s0 := scheme + "/" + s1;
    assert s0 == scheme + "//" + host + "/" + organization;
    SplitNoSeparator(organization, '/');
    SplitAfterPiece(host, '/', organization);
    SplitAfterPiece("", '/', s2);
    SplitAfterPiece(scheme, '/', s1);
  }

  /**
   * The default Control Room address itself, `https://cloud.robocorp.com/`,
   * has no organization or workspace: a run left on it cannot derive a target.
   */
  lemma DeriveFromDefaultUrlFails()
    ensures DeriveProcessesUrl("https://cloud.robocorp.com/") == Failure(IndexError)
  {
    var host := "cloud.robocorp.com";
    var url := "https:" + "//" + host + "/" + "";
    assert url == "https://cloud.robocorp.com/";
    assert '/' !in host;
    assert !EndsWith(url, ProcessesSuffix) by {
      assert url[|url| - 1] == '/';
    }
    DeriveFailsWithoutWorkspace("https:", host, "");
  }

  /** The XPath selector of the table link whose text contains `name`. */
  const RowSelectorPrefix: string := "xpath=//table//a[contains(.,'"
  const RowSelectorSuffix: string := "')]"

  /** The row selector with `name` inserted as is, without any escaping. */
  function RowSelector(name: string): (selector: string)
    ensures StartsWith(selector, RowSelectorPrefix) && EndsWith(selector, RowSelectorSuffix)
    ensures |selector| == |RowSelectorPrefix| + |name| + |RowSelectorSuffix|
    ensures selector[|RowSelectorPrefix|..|selector| - |RowSelectorSuffix|] == name
  {
    var selector := RowSelectorPrefix + name + RowSelectorSuffix;
    assert selector[..|RowSelectorPrefix|] == RowSelectorPrefix;
    assert selector[|selector| - |RowSelectorSuffix|..] == RowSelectorSuffix;
    assert selector[|RowSelectorPrefix|..|selector| - |RowSelectorSuffix|] == name;
    selector
  }

  /** Inverse of `RowSelector`: the text between the fixed prefix and suffix, if both are there. */
  function RowSelectorName(selector: string): Option<string> {
    if |selector| >= |RowSelectorPrefix| + |RowSelectorSuffix| &&
       StartsWith(selector, RowSelectorPrefix) && EndsWith(selector, RowSelectorSuffix)
    then Some(selector[|RowSelectorPrefix|..|selector| - |RowSelectorSuffix|])
    else None
  }

  /** The name can be read back from its selector unchanged. */
  lemma RowSelectorRoundTrip(name: string)
    ensures RowSelectorName(RowSelector(name)) == Some(name)
  {
    var selector := RowSelector(name);
    assert selector == RowSelectorPrefix + name + RowSelectorSuffix;
    assert selector[|RowSelectorPrefix|..|selector| - |RowSelectorSuffix|] == name;
  }

  /** Different process names give different selectors. */
  lemma RowSelectorInjective(name1: string, name2: string)
    requires RowSelector(name1) == RowSelector(name2)
    ensures name1 == name2
  {
    RowSelectorRoundTrip(name1);
    RowSelectorRoundTrip(name2);
  }

  /** The characters of `s` before its first `quote` (all of `s` when there is none). */
  function TakeUntil(s: string, quote: char): (r: string)
    ensures quote !in r
    ensures |r| <= |s| && r == s[..|r|]
  {
    if s == [] || s[0] == quote then []
    else [s[0]] + TakeUntil(s[1..], quote)
  }

  /** Taking up to the first quote from a concatenation. */
  lemma {:induction false} TakeUntilConcat(a: string, b: string, quote: char)
    ensures TakeUntil(a + b, quote) == if quote in a then TakeUntil(a, quote) else a + TakeUntil(b, quote)
  {
    if a == [] {
      assert a + b == b;
    } else {
      assert (a + b)[0] == a[0] && (a + b)[1..] == a[1..] + b;
      if a[0] == quote {
        assert quote in a;
      } else {
        TakeUntilConcat(a[1..], b, quote);
        assert a == [a[0]] + a[1..];
        assert (quote in a) == (quote in a[1..]);
        if quote in a {
          assert TakeUntil(a, quote) == [a[0]] + TakeUntil(a[1..], quote);
        } else {
          assert a + TakeUntil(b, quote) == [a[0]] + (a[1..] + TakeUntil(b, quote));
        }
      }
    }
  }

  /** The first XPath string literal of the selector: from the quote after `contains(.,` to the next quote. */
  function QuotedText(selector: string): string
    requires StartsWith(selector, RowSelectorPrefix)
  {
    TakeUntil(selector[|RowSelectorPrefix|..], '\'')
  }

  /**
   * Because the name is not escaped, the first XPath string literal of the
   * selector closes at the name's first single quote: it is exactly the name
   * when the name has none, and otherwise a strict prefix of it, the rest of
   * the name then being read as XPath syntax.
   */
  lemma RowSelectorQuotedText(name: string)
    ensures QuotedText(RowSelector(name)) == TakeUntil(name, '\'')
    ensures '\'' !in name ==> QuotedText(RowSelector(name)) == name
    ensures '\'' in name ==> |QuotedText(RowSelector(name))| < |name|
  {
    var selector := RowSelector(name);
    assert selector[|RowSelectorPrefix|..] == name + RowSelectorSuffix;
    TakeUntilConcat(name, RowSelectorSuffix, '\'');
    assert RowSelectorSuffix[0] == '\'';
    if '\'' !in name {
      TakeUntilWhole(name, '\'');
    }
  }

  /** Without a quote, everything is taken. */
  lemma {:induction false} TakeUntilWhole(s: string, quote: char)
    requires quote !in s
    ensures TakeUntil(s, quote) == s
  {
    if s != [] {
      assert quote !in s[1..] by {
        forall i | 0 <= i < |s[1..]| ensures s[1..][i] != quote {
          assert s[1..][i] == s[i + 1];
        }
      }
      TakeUntilWhole(s[1..], quote);
      assert s == [s[0]] + s[1..];
    }
  }
}
