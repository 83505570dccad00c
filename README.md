# Scientific Python translations sync: a Dafny model

This project models the logic of the GitHub Action that keeps the
translations repository of a Scientific Python website in step with its
source repository, and of its Crowdin client, which collects who
translated what. The model covers four parts of `main.py`, as they are
defined there. The file's entry point, `main`, only prints the parsed
inputs: it calls neither `sync_website_content` nor `get_translators`.

- **Cloning.** The two `git clone` commands differ in one way. The source
  repository is cloned with `--single-branch -b <ref>` when a ref is given.
  The translations repository is cloned with `-b <ref>` only. Without a
  ref, both clone the default branch. Credentials go into the URL
  `https://<user>:<token>@github.com/<repo>.git`.
- **The run.** `sync_website_content` configures git, clones, rsyncs, makes
  a `content-sync-<time>` branch and stages everything. It continues only
  when `git diff --staged --quiet` exits non-zero, meaning changes are
  staged. It then commits (signed), pushes and opens an "Update content"
  pull request.
- **The auto-merge gate.** The code takes the first open pull request with
  that title whose head is that branch. It enables a squash auto-merge
  only when every commit of that pull request meets two conditions: GitHub
  verified the commit, and the verification payload contains
  `<name> <<email>>`.
- **The Crowdin client.** `get_projects` and `get_languages` build a dict
  keyed by project name. `get_translators` visits projects and languages
  in sorted order and pages through each language's translations, 500 at a
  time. It stops at the first empty page. For every language it records
  the sorted translators and translation ids, or only an empty id list
  when nobody translated.

The modules are:

- `Optional`: Python's `None`.
- `Sorting`: Python's `sorted` on a set, as the unique strictly increasing
  listing.
- `Text`: Python's substring test `in` and string ordering `<`.
- `Crowdin`: the client above.
- `Sync`: the commands and the gate.

The remote services are parameters:

- the Crowdin project listing is a sequence;
- the page call is a function of its arguments;
- the exit code of the staged diff is an integer;
- the open pull requests, in the order the API lists them, are a sequence.

The run returns the commands it issues, in order, together with how it
ended.

When no pull request matches, the code does nothing: nothing is merged
and nothing is reported (`Sync.NoMatchNoAction`). A matching pull request
with no commits passes vacuously (`Sync.NoCommitsMerges`).

## Model

| member | source | states |
|---|---|---|
| Crowdin.LastIndex | main.py:22-23 | the position of the last project with a given name: the one whose value a dict assignment keeps |
| Crowdin.GetProjects | main.py:19-24 | the keys are exactly the listed project names; each name maps to the id of the last project of that name |
| Crowdin.GetLanguages | main.py:26-31 | the keys are exactly the listed project names; each name maps to the target language ids of the last project of that name |
| Crowdin.FirstEmptyPage | main.py:73-89 | the page at which the paging loop stops is empty, and every page before it is non-empty |
| Crowdin.CollectedMembers | main.py:74-81 | the pages read are those at offsets 0, 500, 1000, …: a translation is collected iff it is on one of them |
| Crowdin.AddPage | main.py:77-79 | the user and id sets grow by exactly the usernames and ids of the page |
| Crowdin.UsernamesAppend | main.py:77-81 | reading one more page adds its usernames and ids to those already collected |
| Crowdin.SortedStrings | main.py:84 | `sorted` of the users: strictly increasing in string order, with the same members |
| Crowdin.SortedInts | main.py:85 | `sorted` of the translation ids: strictly increasing, with the same members |
| Crowdin.Entry | main.py:83-88 | translators are recorded iff some user was seen, sorted and with exactly the users seen; without users only an empty id list is kept |
| Crowdin.Summarize | main.py:83-88 | translators are recorded iff some translation was collected; translators and ids are sorted and are exactly those of the collected translations |
| Crowdin.LanguageSummaryTranslators | main.py:73-86 | a user is a recorded translator iff they made a translation on some page before the first empty one |
| Crowdin.CollectLanguage | main.py:69-89 | when some page is empty, the paging loop returns the summary of all pages before the first empty one |
| Crowdin.VisitOrder | main.py:63-67 | projects and languages are visited in strictly increasing string order, so each name is visited exactly once, and exactly the given names are visited |
| Crowdin.CollectProject | main.py:66-89 | the project's entries have exactly its target languages as keys, each holding that language's summary |
| Crowdin.RecordProjects | main.py:63-68 | for each visited name, the project of that name is looked up in the two maps, and exactly the visited names get entries, each recording that project's languages |
| Crowdin.GetTranslators | main.py:60-91 | the results have exactly the project names as keys; each project records the summaries of the target languages of the last project of that name |
| Sorting.Sorted | main.py:84-85 | sorting a set gives a strictly increasing sequence with the same members and no duplicates |
| Sorting.SortedUnique | main.py:84-85 | two strictly increasing sequences with the same members are equal, so `sorted` has exactly one result |
| Text.StrLtIsStrictTotalOrder | main.py:63-67 | Python's string `<` is a strict total order, so sorting names is well defined |
| Text.Occurs | main.py:328 | `signed_by in payload` holds iff the signer occurs at some position of the payload |
| Sync.SourceCloneArgv | main.py:234-248 | `git clone` of the credentialed URL; with a ref, `-b <ref>` right before the URL; without one, three words |
| Sync.TranslationsCloneArgv | main.py:252-265 | `git clone` of the credentialed URL; with a ref, `-b <ref>` right before the URL; without one, three words |
| Sync.SourceCloneRequest | main.py:234-250 | as git reads it, the source clone asks for that URL, that branch when a ref is given, and a single branch exactly when a ref is given |
| Sync.TranslationsCloneRequest | main.py:252-267 | as git reads it, the translations clone asks for that URL and that branch when a ref is given, and never for a single branch |
| Sync.FirstMatch | main.py:311-313 | the first pull request with the run's title and branch; none iff no pull request has both |
| Sync.All | main.py:331 | `all(checks)` holds iff every check holds, including when there are none |
| Sync.SignatureGate | main.py:309-339 | the loop's outcome: no action without a match; otherwise merge iff every commit of the first match is verified and names the signer, else abort |
| Sync.MergeOnlyWhenAllSigned | main.py:326-335 | a merge implies a matching pull request whose every commit is verified and whose payload contains the signer |
| Sync.OneBadCommitAborts | main.py:326-337 | one unverified commit, or one whose payload lacks the signer, makes the gate abort |
| Sync.NoCommitsMerges | main.py:317-335 | a matching pull request with no commits is merged |
| Sync.NoMatchNoAction | main.py:311-339 | without a matching pull request there is neither a merge nor an abort |
| Sync.LaterPullsIgnored | main.py:339 | pull requests listed after the first match change neither the match nor the outcome |
| Sync.SyncWebsiteContent | main.py:231-343 | when the translations clone leaves a directory to enter, the setup commands come first, in order. A zero diff exit code means no changes, and then nothing is committed, pushed or opened, and the converse holds too. Otherwise the commit, remote, push and pull-request commands follow and the gate decides. When there are changes, exactly the setup commands, then the publish commands, then the merge command on a merge are issued, and nothing else. The merge command is issued iff the outcome is a merge |

## Left out

- Process execution (`run`), its printing and its output capture are left out. The model records each command instead, and the exit code of the staged diff is an input.
- The Crowdin and GitHub API clients are left out. Their answers are inputs instead:
  - the project listing;
  - the page function;
  - the open pull requests with their commits' verification fields, in the order the API lists them (newest first).
- The model reads one project listing for both maps. `get_projects` and `get_languages` each call `list_projects` again, and the model assumes both calls return the same listing.
- The time of the run is an input string. `datetime.now()` and its formatting are not part of this model.
- Environment variables are not part of this model: saving and restoring `GITHUB_TOKEN` around `gh`, and reading the inputs in `parse_input`.
- `os.chdir` into the translations repository's directory is not part of this model, and neither is the `IndexError` that `split("/")[1]` raises for a repository name without a slash.
- The effects on disk and on GitHub of git, rsync and gh are not modelled: only which commands are issued, and in what order.
- `get_projects_status`, `get_members`, `get_reviewers`, `get_translations`, `set_github_action_output` and `main` are not part of this model, because they are reporting and glue around the core.
- Crowdin.GetProjects: describes the resulting dict by its contents. It does not describe the dict's key insertion order. Nothing in the core depends on that order, because `get_translators` sorts the keys.
- Crowdin.CollectProject: visits the target languages as a sorted set. A language id listed twice is fetched twice by the source, and each time it is summarized to the same entry, so the result is the same.
- Crowdin.CollectLanguage: requires that some page is empty. If every page has data, the source loop never ends. The model does not describe that run.
- Crowdin.GetTranslators: requires that paging ends for every visited language, for the same reason.
- Crowdin.GetTranslators: describes `results` and each `results[project]` as maps. It does not describe the dicts' key insertion order, which the source makes sorted by visiting names in sorted order.
- Sync.SyncWebsiteContent: assumes that the translations clone creates the directory that `os.chdir` enters. `run` ignores the clone's exit code. If the clone fails, for example because the ref names no branch or the token is rejected, the source raises `FileNotFoundError` after the rsync and stops after five commands. The model does not describe that run.
- Sync.SignatureGate: assumes a verified commit always has a payload. When the payload is `None`, the source's `in` test raises `TypeError`, and the model does not cover that.
- main.py has no commit filter, approval thresholds or file reconciliation, so none is modelled.
- Sync.ParseCloneOptions: reads only the `git clone` options that this program passes, with the repository last. It stands as an independent reading of the commands, not as all of git's option parsing.
