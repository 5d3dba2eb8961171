/**
 * The framework list of the configuration and what is derived from it: the
 * framework load paths, the `require_frameworks` step and the
 * `load_view_paths` step.
 */
module Frameworks {
  import opened Wrappers

  /** A framework identifier is a Ruby symbol, written here by its name. */
  type Framework = string

  const ActiveRecord: Framework := "active_record"
  const ActionController: Framework := "action_controller"
  const ActionView: Framework := "action_view"
  const ActionMailer: Framework := "action_mailer"
  const ActiveResource: Framework := "active_resource"
  const ActionWebService: Framework := "action_web_service"

  /** The frameworks a fresh configuration activates. */
  const DefaultFrameworks: seq<Framework> :=
    [ActiveRecord, ActionController, ActionView, ActionMailer, ActiveResource]

  /** The framework identifiers `require` can load. */
  const KnownFrameworks: set<Framework> :=
    {ActiveRecord, ActionController, ActionView, ActionMailer, ActiveResource, ActionWebService}

  /** The directories, under the framework root, that are always on the path. */
  const BaseDirs: seq<string> := ["railties", "railties/lib", "activesupport/lib"]

  /** The directory that the controller and the view frameworks share. */
  const ActionPackDir: string := "actionpack/lib"

  /** The frameworks whose library directory is named after the framework,
    * with that directory, in the order the paths are listed. */
  const NamedLibraryDirs: seq<(Framework, string)> := [
    (ActiveRecord, "activerecord/lib"),
    (ActionMailer, "actionmailer/lib"),
    (ActiveResource, "activeresource/lib"),
    (ActionWebService, "actionwebservice/lib")
  ]

  // ---------------------------------------------------------------------------
  // framework_paths
  // ---------------------------------------------------------------------------

  /** The name with every underscore removed, other characters kept in order. */
  function StripUnderscores(s: string): string
    decreases |s|
  {
    if |s| == 0 then []
    else (if s[0] == '_' then [] else [s[0]]) + StripUnderscores(s[1..])
  }

  lemma {:induction false} StripUnderscoresAppend(a: string, b: string)
    ensures StripUnderscores(a + b) == StripUnderscores(a) + StripUnderscores(b)
    decreases |a|
  {
    if a == [] {
      assert a + b == b;
    } else {
      assert (a + b)[1..] == a[1..] + b;
      StripUnderscoresAppend(a[1..], b);
    }
  }

  lemma {:induction false} StripUnderscoresKeeps(s: string)
    requires '_' !in s
    ensures StripUnderscores(s) == s
    decreases |s|
  {
    if s != [] {
      StripUnderscoresKeeps(s[1..]);
    }
  }

  lemma StripUnderscoresCons(c: char, s: string)
    ensures StripUnderscores([c] + s) == (if c == '_' then [] else [c]) + StripUnderscores(s)
  {
    assert ([c] + s)[1..] == s;
  }

  /** An underscore between two words disappears and nothing else changes. */
  lemma StripUnderscoresAtJoin(a: string, b: string)
    ensures StripUnderscores(a + "_" + b) == StripUnderscores(a) + StripUnderscores(b)
  {
    var u := ['_'] + b;
    assert a + "_" + b == a + u;
    StripUnderscoresAppend(a, u);
    StripUnderscoresCons('_', b);
  }

  /** Removing the underscores of `a_b` joins the two words. */
  lemma StripUnderscoresJoins(a: string, b: string)
    requires '_' !in a && '_' !in b
    ensures StripUnderscores(a + "_" + b) == a + b
  {
    StripUnderscoresAtJoin(a, b);
    StripUnderscoresKeeps(a);
    StripUnderscoresKeeps(b);
  }

  /** `a_b` loses its underscore: the case of the record, mailer and resource frameworks. */
  lemma TwoWordDir(f: Framework, a: string, b: string)
    requires f == a + "_" + b && '_' !in a && '_' !in b
    ensures StripUnderscores(f) == a + b
  {
    StripUnderscoresJoins(a, b);
  }

  /** `a_b_c` loses both underscores: the case of the web-service framework. */
  lemma ThreeWordDir(f: Framework, a: string, b: string, c: string)
    requires f == a + "_" + b + "_" + c && '_' !in a && '_' !in b && '_' !in c
    ensures StripUnderscores(f) == a + b + c
  {
    var ab := a + "_" + b;
    StripUnderscoresAtJoin(ab, c);
    StripUnderscoresJoins(a, b);
    StripUnderscoresKeeps(c);
  }

  /** Each listed library directory is the framework name with its
    * underscores removed, followed by `/lib`. */
  lemma NamedLibraryDirsDropUnderscores(f: Framework, dir: string)
    requires (f, dir) in NamedLibraryDirs
    ensures dir == StripUnderscores(f) + "/lib"
  {
    var action, active := "action", "active";
    if f == ActiveRecord {
      var name := "record";
      assert dir == active + name + "/lib";
      TwoWordDir(f, active, name);
    } else if f == ActionMailer {
      var name := "mailer";
      assert dir == action + name + "/lib";
      TwoWordDir(f, action, name);
    } else if f == ActiveResource {
      var name := "resource";
      assert dir == active + name + "/lib";
      TwoWordDir(f, active, name);
    } else {
      var web, service := "web", "service";
      assert dir == action + web + service + "/lib";
      ThreeWordDir(f, action, web, service);
    }
  }

  /** The library directories of the listed frameworks that are active, in list order. */
  function LibDirs(candidates: seq<(Framework, string)>, frameworks: seq<Framework>): (r: seq<string>)
    ensures forall d :: d in r <==> exists c :: c in candidates && c.0 in frameworks && d == c.1
    decreases |candidates|
  {
    if |candidates| == 0 then []
    else
      var rest := LibDirs(candidates[1..], frameworks);
      assert forall c :: c in candidates <==> c == candidates[0] || c in candidates[1..];
      (if candidates[0].0 in frameworks then [candidates[0].1] else []) + rest
  }

  lemma {:induction false} LibDirsNoneActive(candidates: seq<(Framework, string)>, frameworks: seq<Framework>)
    requires forall i :: 0 <= i < |candidates| ==> candidates[i].0 !in frameworks
    ensures LibDirs(candidates, frameworks) == []
    decreases |candidates|
  {
    if |candidates| > 0 {
      LibDirsNoneActive(candidates[1..], frameworks);
    }
  }

  /** The framework directories, relative to the framework root. */
  function FrameworkDirs(frameworks: seq<Framework>): seq<string> {
    BaseDirs
    + (if ActionController in frameworks || ActionView in frameworks then [ActionPackDir] else [])
    + LibDirs(NamedLibraryDirs, frameworks)
  }

  function Under(root: string, dir: string): string {
    root + "/" + dir
  }

  /** Each directory joined to the root, in order. */
  function JoinAll(root: string, dirs: seq<string>): seq<string> {
    seq(|dirs|, i requires 0 <= i < |dirs| => Under(root, dirs[i]))
  }

  /** A joined path comes from one of the directories, and every directory gives one. */
  lemma JoinAllMembers(root: string, dirs: seq<string>)
    ensures forall p :: p in JoinAll(root, dirs) <==> exists d :: d in dirs && p == Under(root, d)
  {
    var r := JoinAll(root, dirs);
    forall p | p in r ensures exists d :: d in dirs && p == Under(root, d) {
      var i :| 0 <= i < |r| && r[i] == p;
      assert dirs[i] in dirs;
    }
    forall d | d in dirs ensures Under(root, d) in r {
      var i :| 0 <= i < |dirs| && dirs[i] == d;
      assert r[i] == Under(root, d);
    }
  }

  /** `framework_paths`: every framework directory, joined to the root. */
  function FrameworkPaths(root: string, frameworks: seq<Framework>): (r: seq<string>)
    ensures |r| >= 3
    ensures r[..3] == [Under(root, "railties"), Under(root, "railties/lib"), Under(root, "activesupport/lib")]
    ensures frameworks == [] ==> r == r[..3]
    ensures forall p :: p in r <==> exists d :: d in FrameworkDirs(frameworks) && p == Under(root, d)
  {
    var dirs := FrameworkDirs(frameworks);
    JoinAllMembers(root, dirs);
    assert frameworks == [] ==> |dirs| == 3 by {
      if frameworks == [] {
        LibDirsNoneActive(NamedLibraryDirs, frameworks);
      }
    }
    JoinAll(root, dirs)
  }

  /** Joining to one root never makes two different directories equal. */
  lemma UnderInjective(root: string, a: string, b: string)
    requires Under(root, a) == Under(root, b)
    ensures a == b
  {
    var n := |root| + 1;
    assert a == Under(root, a)[n..];
    assert b == Under(root, b)[n..];
  }

  /** With no frameworks the paths are exactly the three base directories. */
  lemma MinimalFrameworkPaths(root: string)
    ensures FrameworkPaths(root, []) ==
      [Under(root, "railties"), Under(root, "railties/lib"), Under(root, "activesupport/lib")]
  {
  }

  /** The shared action pack directory is on the path exactly when the
    * controller or the view framework is active. */
  lemma ActionPackPathIffControllerOrView(root: string, frameworks: seq<Framework>)
    ensures Under(root, ActionPackDir) in FrameworkPaths(root, frameworks) <==>
      ActionController in frameworks || ActionView in frameworks
  {
    var paths := FrameworkPaths(root, frameworks);
    if ActionController in frameworks || ActionView in frameworks {
      assert ActionPackDir in FrameworkDirs(frameworks);
    }
    if Under(root, ActionPackDir) in paths {
      var d :| d in FrameworkDirs(frameworks) && Under(root, ActionPackDir) == Under(root, d);
      UnderInjective(root, ActionPackDir, d);
    }
  }

  /** The directory listed for a library framework is on the path exactly
    * when that framework is active. */
  lemma LibraryDirOnPathIffActive(root: string, frameworks: seq<Framework>, f: Framework, dir: string)
    requires (f, dir) in NamedLibraryDirs
    ensures Under(root, dir) in FrameworkPaths(root, frameworks) <==> f in frameworks
  {
    var paths := FrameworkPaths(root, frameworks);
    if f in frameworks {
      assert dir in LibDirs(NamedLibraryDirs, frameworks);
      assert dir in FrameworkDirs(frameworks);
    }
    if Under(root, dir) in paths {
      var d :| d in FrameworkDirs(frameworks) && Under(root, dir) == Under(root, d);
      UnderInjective(root, dir, d);
      assert d in LibDirs(NamedLibraryDirs, frameworks);
      var c :| c in NamedLibraryDirs && c.0 in frameworks && d == c.1;
    }
  }

  /** Each of the record, mailer, resource and web-service frameworks puts
    * its own name, without underscores, followed by `/lib` on the path, and
    * that path is there exactly when the framework is active. */
  lemma LibraryPathIffActive(root: string, frameworks: seq<Framework>, f: Framework, dir: string)
    requires (f, dir) in NamedLibraryDirs
    ensures dir == StripUnderscores(f) + "/lib"
    ensures Under(root, dir) in FrameworkPaths(root, frameworks) <==> f in frameworks
  {
    NamedLibraryDirsDropUnderscores(f, dir);
    LibraryDirOnPathIffActive(root, frameworks, f, dir);
  }

  // ---------------------------------------------------------------------------
  // require_frameworks
  // ---------------------------------------------------------------------------

  /** The RuntimeError `require_frameworks` raises in place of the LoadError
    * for an identifier that names no framework library. */
  datatype RequireError = RuntimeError(framework: Framework)

  /** `require_frameworks`: the frameworks are required in list order; the
    * first identifier that is not a framework library stops the step with a
    * RuntimeError naming it. */
  function RequireFrameworks(frameworks: seq<Framework>): (r: Outcome<RequireError>)
    ensures r.Pass? <==> forall i :: 0 <= i < |frameworks| ==> frameworks[i] in KnownFrameworks
    ensures r.Fail? ==> (exists k :: 0 <= k < |frameworks| && frameworks[k] == r.error.framework &&
                          frameworks[k] !in KnownFrameworks &&
                          forall i :: 0 <= i < k ==> frameworks[i] in KnownFrameworks)
    decreases |frameworks|
  {
    if frameworks == [] then Pass
    else if frameworks[0] !in KnownFrameworks then Fail(RuntimeError(frameworks[0]))
    else
      var rest := RequireFrameworks(frameworks[1..]);
      if rest.Fail? then
        var k :| 0 <= k < |frameworks[1..]| && frameworks[1..][k] == rest.error.framework
          && frameworks[1..][k] !in KnownFrameworks
          && forall i :: 0 <= i < k ==> frameworks[1..][i] in KnownFrameworks;
        assert frameworks[k + 1] == rest.error.framework;
        assert forall i :: 0 <= i < k + 1 ==> frameworks[i] in KnownFrameworks by {
          forall i | 0 <= i < k + 1 ensures frameworks[i] in KnownFrameworks {
            if i > 0 { assert frameworks[i] == frameworks[1..][i - 1]; }
          }
        }
        rest
      else
        assert forall i :: 1 <= i < |frameworks| ==> frameworks[i] == frameworks[1..][i - 1];
        rest
  }

  // ---------------------------------------------------------------------------
  // load_view_paths
  // ---------------------------------------------------------------------------

  /** The framework classes whose view paths `load_view_paths` reloads. */
  datatype ViewPathOwner = ControllerViews | MailerViews

  /** `load_view_paths`: which view paths are reloaded, in order. */
  function LoadViewPaths(frameworks: seq<Framework>): (r: seq<ViewPathOwner>)
    ensures ActionView !in frameworks ==> r == []
    ensures ControllerViews in r <==> ActionView in frameworks && ActionController in frameworks
    ensures MailerViews in r <==> ActionView in frameworks && ActionMailer in frameworks
    ensures |r| <= 2
  {
    if ActionView in frameworks then
      (if ActionController in frameworks then [ControllerViews] else [])
      + (if ActionMailer in frameworks then [MailerViews] else [])
    else []
  }
}
