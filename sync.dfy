/**
 * `sync_website_content`: the commands it issues and the auto-merge gate
 * that decides, from the open pull requests, whether to merge the content
 * update it has just proposed.
 */
module Sync {
  import opened Optional
  import opened Text

  /** One external command, as the list handed to the process runner. */
  type Argv = seq<string>

  /** A commit of a pull request, with GitHub's signature verification of it. */
  datatype Commit = Commit(verified: bool, payload: string)

  /** An open pull request: its title, its head branch and its commits. */
  datatype PullRequest = PullRequest(title: string, head: string, commits: seq<Commit>)

  /** How a run ends. */
  datatype Outcome =
    | NoChanges     // nothing staged: no commit, push, pull request or merge
    | NoMatchingPR  // changes pushed, but no open pull request has our title and branch
    | Merge         // the matching pull request is set to auto-merge (squash)
    | Abort         // the matching pull request has a commit that fails the signature check

  /** The inputs of `sync_website_content`. */
  datatype SyncConfig = SyncConfig(
    username: string, token: string,
    sourceRepo: string, sourceFolder: string, sourceRef: string,
    translationsRepo: string, translationsFolder: string, translationsRef: string,
    name: string, email: string)

  const PrTitle: string := "Update content"

  /** The branch the run creates, from the formatted time of the run. */
  function BranchName(dateTime: string): string {
    "content-sync-" + dateTime
  }

  /** The identity every commit's signature must name. */
  function SignedBy(name: string, email: string): string {
    name + " <" + email + ">"
  }

  // ---------------------------------------------------------------------------
  // Clone commands

  /** The clone URL, with the credentials embedded. */
  function RepoUrl(username: string, token: string, repo: string): string {
    "https://" + username + ":" + token + "@github.com/" + repo + ".git"
  }

  /** Cloning the source repository: only the requested branch when a ref is given. */
  function SourceCloneArgv(username: string, token: string, repo: string, ref: string): (argv: Argv)
    ensures |argv| >= 3 && argv[..2] == ["git", "clone"] && argv[|argv| - 1] == RepoUrl(username, token, repo)
    ensures |argv| == 3 <==> ref == ""
    ensures ref != "" ==> argv[|argv| - 3] == "-b" && argv[|argv| - 2] == ref
  {
    if ref != "" then
      ["git", "clone", "--single-branch", "-b", ref, RepoUrl(username, token, repo)]
    else
      ["git", "clone", RepoUrl(username, token, repo)]
  }

  /** Cloning the translations repository: the requested branch checked out, all branches fetched. */
  function TranslationsCloneArgv(username: string, token: string, repo: string, ref: string): (argv: Argv)
    ensures |argv| >= 3 && argv[..2] == ["git", "clone"] && argv[|argv| - 1] == RepoUrl(username, token, repo)
    ensures |argv| == 3 <==> ref == ""
    ensures ref != "" ==> argv[|argv| - 3] == "-b" && argv[|argv| - 2] == ref
  {
    if ref != "" then
      ["git", "clone", "-b", ref, RepoUrl(username, token, repo)]
    else
      ["git", "clone", RepoUrl(username, token, repo)]
  }

  /** What a `git clone` command asks for. */
  datatype CloneRequest = CloneRequest(url: string, branch: Option<string>, singleBranch: bool)

  /**
   * How `git clone` reads the options used here: `--single-branch`,
   * `-b <branch>`, then the repository as the last argument.
   */
  function ParseCloneOptions(args: Argv, branch: Option<string>, singleBranch: bool): Option<CloneRequest>
    decreases |args|
  {
    if |args| == 0 then None
    else if args[0] == "--single-branch" then ParseCloneOptions(args[1..], branch, true)
    else if args[0] == "-b" then
      if |args| == 1 then None else ParseCloneOptions(args[2..], Some(args[1]), singleBranch)
    else if |args| == 1 then Some(CloneRequest(args[0], branch, singleBranch))
    else None
  }

  function ParseClone(argv: Argv): Option<CloneRequest> {
    if |argv| >= 2 && argv[0] == "git" && argv[1] == "clone" then ParseCloneOptions(argv[2..], None, false)
    else None
  }

  lemma RepoUrlIsNotAnOption(username: string, token: string, repo: string)
    ensures RepoUrl(username, token, repo) != "-b" && RepoUrl(username, token, repo) != "--single-branch"
  {
  }

  /**
   * The source clone fetches the repository at the URL, checks out `ref`
   * and fetches only that branch when one is given, and takes the default
   * branch otherwise.
   */
  lemma SourceCloneRequest(username: string, token: string, repo: string, ref: string)
    ensures ParseClone(SourceCloneArgv(username, token, repo, ref))
         == Some(CloneRequest(RepoUrl(username, token, repo), if ref == "" then None else Some(ref), ref != ""))
  {
    RepoUrlIsNotAnOption(username, token, repo);
    var url := RepoUrl(username, token, repo);
    var argv := SourceCloneArgv(username, token, repo, ref);
    if ref != "" {
      var opts := argv[2..];
      assert opts == ["--single-branch", "-b", ref, url];
      assert opts[1..] == ["-b", ref, url];
      assert opts[1..][2..] == [url];
      assert ParseCloneOptions(opts[1..], None, true) == ParseCloneOptions([url], Some(ref), true);
    } else {
      assert argv[2..] == [url];
    }
  }

  /** The translations clone checks out `ref` when one is given, but never limits itself to one branch. */
  lemma TranslationsCloneRequest(username: string, token: string, repo: string, ref: string)
    ensures ParseClone(TranslationsCloneArgv(username, token, repo, ref))
         == Some(CloneRequest(RepoUrl(username, token, repo), if ref == "" then None else Some(ref), false))
  {
    RepoUrlIsNotAnOption(username, token, repo);
    var url := RepoUrl(username, token, repo);
    var argv := TranslationsCloneArgv(username, token, repo, ref);
    if ref != "" {
      var opts := argv[2..];
      assert opts == ["-b", ref, url];
      assert opts[2..] == [url];
      assert ParseCloneOptions(opts, None, false) == ParseCloneOptions([url], Some(ref), false);
    } else {
      assert argv[2..] == [url];
    }
  }

  // ---------------------------------------------------------------------------
  // The auto-merge gate

  /** The pull request this run opened: our title on our branch. */
  predicate IsTarget(pr: PullRequest, title: string, branch: string) {
    pr.title == title && pr.head == branch
  }

  /** The position of the first pull request, in listing order, that is the target. */
  function FirstMatch(pulls: seq<PullRequest>, title: string, branch: string): (r: Option<nat>)
    ensures r.None? <==> forall j :: 0 <= j < |pulls| ==> !IsTarget(pulls[j], title, branch)
    ensures r.Some? ==> r.value < |pulls| && IsTarget(pulls[r.value], title, branch)
    ensures r.Some? ==> forall j :: 0 <= j < r.value ==> !IsTarget(pulls[j], title, branch)
  {
    if |pulls| == 0 then None
    else if IsTarget(pulls[0], title, branch) then Some(0)
    else match FirstMatch(pulls[1..], title, branch)
      case None => None
      case Some(k) => Some(k + 1)
  }

  /** A commit is trusted when GitHub verified it and the verified payload names the signer. */
  predicate CommitPasses(c: Commit, signedBy: string) {
    c.verified && Occurs(signedBy, c.payload)
  }

  /** Every commit is trusted (true of no commits at all). */
  predicate AllSigned(commits: seq<Commit>, signedBy: string) {
    forall k :: 0 <= k < |commits| ==> CommitPasses(commits[k], signedBy)
  }

  /** Python's `all`. */
  function All(checks: seq<bool>): (r: bool)
    ensures r <==> forall k :: 0 <= k < |checks| ==> checks[k]
  {
    if |checks| == 0 then true else checks[0] && All(checks[1..])
  }

  /**
   * What the gate decides once changes were pushed: nothing without a
   * matching pull request, otherwise merge exactly when all its commits
   * are trusted.
   */
  function Decision(pulls: seq<PullRequest>, title: string, branch: string, signedBy: string): Outcome {
    match FirstMatch(pulls, title, branch)
    case None => NoMatchingPR
    case Some(i) => if AllSigned(pulls[i].commits, signedBy) then Merge else Abort
  }

  /** The loop over the open pull requests, with the signature checks of the one it finds. */
  method SignatureGate(pulls: seq<PullRequest>, title: string, branch: string, signedBy: string)
    returns (outcome: Outcome)
    ensures outcome == Decision(pulls, title, branch, signedBy)
  {
    outcome := NoMatchingPR;
    for i := 0 to |pulls|
      invariant forall j :: 0 <= j < i ==> !IsTarget(pulls[j], title, branch)
      invariant outcome == NoMatchingPR
    {
      var pr := pulls[i];
      if pr.title == title && pr.head == branch {
        var checks: seq<bool> := [];
        for k := 0 to |pr.commits|
          invariant |checks| == k
          invariant forall m :: 0 <= m < k ==> checks[m] == CommitPasses(pr.commits[m], signedBy)
        {
          var c := pr.commits[k];
          checks := checks + [c.verified && Occurs(signedBy, c.payload)];
        }
        if All(checks) {
          outcome := Merge;
        } else {
          outcome := Abort;
        }
        assert FirstMatch(pulls, title, branch) == Some(i);
        return;
      }
    }
  }

  /** Merge is decided only for a matching pull request all of whose commits are verified and name the signer. */
  lemma MergeOnlyWhenAllSigned(pulls: seq<PullRequest>, title: string, branch: string, signedBy: string)
    requires Decision(pulls, title, branch, signedBy) == Merge
    ensures exists i :: 0 <= i < |pulls| && IsTarget(pulls[i], title, branch) && FirstMatch(pulls, title, branch) == Some(i)
    ensures var i := FirstMatch(pulls, title, branch).value;
      forall c :: c in pulls[i].commits ==> c.verified && exists p :: OccursAt(signedBy, c.payload, p)
  {
  }

  /** One untrusted commit of the matching pull request makes the gate abort. */
  lemma OneBadCommitAborts(pulls: seq<PullRequest>, title: string, branch: string, signedBy: string, i: nat, k: nat)
    requires FirstMatch(pulls, title, branch) == Some(i)
    requires k < |pulls[i].commits|
    requires !pulls[i].commits[k].verified || !Occurs(signedBy, pulls[i].commits[k].payload)
    ensures Decision(pulls, title, branch, signedBy) == Abort
  {
  }

  /** A matching pull request without commits passes the check vacuously. */
  lemma NoCommitsMerges(pulls: seq<PullRequest>, title: string, branch: string, signedBy: string, i: nat)
    requires FirstMatch(pulls, title, branch) == Some(i)
    requires pulls[i].commits == []
    ensures Decision(pulls, title, branch, signedBy) == Merge
  {
  }

  /** Without a matching pull request the gate neither merges nor aborts. */
  lemma NoMatchNoAction(pulls: seq<PullRequest>, title: string, branch: string, signedBy: string)
    requires forall j :: 0 <= j < |pulls| ==> !IsTarget(pulls[j], title, branch)
    ensures Decision(pulls, title, branch, signedBy) == NoMatchingPR
  {
  }

  /** Only the first match counts: pull requests listed after it change nothing. */
  lemma LaterPullsIgnored(pulls: seq<PullRequest>, more: seq<PullRequest>, title: string, branch: string, signedBy: string)
    requires FirstMatch(pulls, title, branch).Some?
    ensures FirstMatch(pulls + more, title, branch) == FirstMatch(pulls, title, branch)
    ensures Decision(pulls + more, title, branch, signedBy) == Decision(pulls, title, branch, signedBy)
  {
    var i := FirstMatch(pulls, title, branch).value;
    assert (pulls + more)[i] == pulls[i];
    assert forall j :: 0 <= j < i ==> (pulls + more)[j] == pulls[j];
  }

  // ---------------------------------------------------------------------------
  // The run

  function ConfigArgv(key: string, value: string): Argv {
    ["git", "config", "--global", key, "\"" + value + "\""]
  }

  /** The commands issued before the staged diff is inspected; the last one is that diff. */
  function SetupCommands(cfg: SyncConfig, branch: string): seq<Argv> {
    [ ConfigArgv("user.name", cfg.name),
      ConfigArgv("user.email", cfg.email),
      SourceCloneArgv(cfg.username, cfg.token, cfg.sourceRepo, cfg.sourceRef),
      TranslationsCloneArgv(cfg.username, cfg.token, cfg.translationsRepo, cfg.translationsRef),
      ["rsync", "-av", "--delete", cfg.sourceFolder, cfg.translationsFolder],
      ["git", "checkout", "-b", branch],
      ["git", "add", "."],
      ["git", "diff", "--staged", "--quiet"] ]
  }

  /** Commit, push and open the pull request. */
  function PublishCommands(branch: string): seq<Argv> {
    [ ["git", "commit", "-S", "-m", "Update content."],
      ["git", "remote", "-v"],
      ["git", "push", "-u", "origin", branch],
      ["gh", "pr", "create", "--base", "main", "--head", branch, "--title", PrTitle,
       "--body", "Automated content update."] ]
  }

  function MergeArgv(branch: string): Argv {
    ["gh", "pr", "merge", branch, "--auto", "--squash"]
  }

  /** A command that changes a repository on GitHub or its history: commit, push, or any `gh pr` command. */
  predicate Publishes(argv: Argv) {
    |argv| >= 2 && ((argv[0] == "git" && (argv[1] == "commit" || argv[1] == "push")) || (argv[0] == "gh" && argv[1] == "pr"))
  }

  /**
   * `sync_website_content`, given the exit code of `git diff --staged
   * --quiet` and the open pull requests listed after the push: the commands
   * it issues, in order, and how it ends.
   */
  method SyncWebsiteContent(cfg: SyncConfig, dateTime: string, diffRc: int, pulls: seq<PullRequest>)
    returns (issued: seq<Argv>, outcome: Outcome)
    ensures var branch := BranchName(dateTime);
      && |issued| >= 8 && issued[..8] == SetupCommands(cfg, branch)
      && (diffRc == 0 ==> outcome == NoChanges && |issued| == 8)
      && (diffRc != 0 ==> outcome == Decision(pulls, PrTitle, branch, SignedBy(cfg.name, cfg.email)))
      && (diffRc != 0 ==> |issued| >= 12 && issued[8..12] == PublishCommands(branch))
      && (MergeArgv(branch) in issued <==> outcome == Merge)
      && (outcome == Merge ==> issued[|issued| - 1] == MergeArgv(branch))
    ensures diffRc == 0 <==> forall k :: 0 <= k < |issued| ==> !Publishes(issued[k])
    ensures diffRc != 0 ==>
      issued == SetupCommands(cfg, BranchName(dateTime)) + PublishCommands(BranchName(dateTime))
                + (if outcome == Merge then [MergeArgv(BranchName(dateTime))] else [])
  {
    var branch := BranchName(dateTime);
    issued := [];
    issued := issued + [ConfigArgv("user.name", cfg.name)];
    issued := issued + [ConfigArgv("user.email", cfg.email)];
    issued := issued + [SourceCloneArgv(cfg.username, cfg.token, cfg.sourceRepo, cfg.sourceRef)];
    issued := issued + [TranslationsCloneArgv(cfg.username, cfg.token, cfg.translationsRepo, cfg.translationsRef)];
    issued := issued + [["rsync", "-av", "--delete", cfg.sourceFolder, cfg.translationsFolder]];
    issued := issued + [["git", "checkout", "-b", branch]];
    issued := issued + [["git", "add", "."]];
    issued := issued + [["git", "diff", "--staged", "--quiet"]];
    assert issued == SetupCommands(cfg, branch);
    assert forall k :: 0 <= k < 8 ==> !Publishes(issued[k]);
    if diffRc != 0 {
      issued := issued + PublishCommands(branch);
      assert Publishes(issued[8]);
      outcome := SignatureGate(pulls, PrTitle, branch, SignedBy(cfg.name, cfg.email));
      if outcome == Merge {
        issued := issued + [MergeArgv(branch)];
      }
    } else {
      outcome := NoChanges;
    }
  }
}
