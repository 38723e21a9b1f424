# Binary deployer: a Dafny model

This project models the core of the Jenkins *binary deployer* plugin, which
publishes the artifacts of a build to a remote repository:

- **Binary naming** (`Binaries`, `binary.dfy`): a `Binary` pairs a leaf file
  with its destination name; `Binary.from(file)` and `Binary.from(file, parent)`
  compute that name, normalising the parent prefix.
- **Tree flattening** (`Recorder`, `recorder.dfy`): the build step's
  `crossDirectories` walks the artifact tree depth-first in enumeration order
  and emits one Binary per leaf, named by its directory path or, with
  `flatten`, by its own name alone. The loop method is proved equal to a
  recursive function, and that function is proved equal to a reference
  defined over root-to-leaf paths, from which the count, order and naming
  properties follow.
- **HTTP upload** (`Http`, `HttpBackend`, `LegacyHttpBackend`): the current
  `HttpRepository` and the older `HTTPRepository` POST each file in order to
  `remoteLocation + name` and stop at the first reply that is not 2xx
  (section 15.3 of RFC 9110). Both are classes whose state is the normalised
  location, the log of POSTed URLs, the count of open clients and open
  responses, and (current variant) the client built; `Deploy` may set the
  result of the run it is given to FAILURE. The remote endpoint is a
  parameter: a function giving the reply to the k-th POST of one `deploy`
  call. Both `deploy` loops are
  proved against one function, `Http.Upload`, whose contract states the
  fail-fast behaviour.

Supporting modules: `Wrappers` (Option for a possibly-null reference, Result
for a call that may throw), `Files` (the artifact tree as
`Leaf(name) | Dir(name, children)`), `Strings` (trailing separators and
`/`-joined paths).

Details of the code the model keeps:

- `deploy` returns nothing and throws on the first failure. The model returns
  an `Outcome` instead, and the number of accepted POSTs is the length of the
  POST log, minus one on failure.
- The exception for a non-2xx reply carries only the status line;
  `Rejected(status)` keeps the status code.
- A transport failure thrown by `client.execute` does not mark the run
  FAILURE in the current variant; only a received non-2xx response does.
- An unknown credentials id makes `findCredentialById` return null, and the
  code dereferences it, which throws a null pointer exception before any
  client exists. The model names that exception `MissingCredentials(id)`;
  nothing is posted or closed.
- Destination names are `/`-joined paths, non-empty and free of a leading
  `/`, when every directory and leaf name is a non-empty name without `/`.
  That condition is sufficient, not necessary, and the code does not check
  it: `HierarchicalNames` assumes it (`WellNamed`), while
  `FlattenFollowsLeafPaths` states the exact names for every tree.
- The core build step passes a list of Binaries to `deploy`, while the
  `Repository` it calls declares `deploy(VirtualFile[], Run)`. The model's
  `deploy` takes the sequence of destination names.
- In the source the core build step holds a core `Repository`, which only the
  object-store backend extends; both HTTP backends extend the other package's
  `Repository`. The pairing of the core build step's `Perform` with the
  current `HttpRepository` exists only in this model, to connect the
  flattening to an upload loop that is modelled.
- `run.setResult(FAILURE)` calls Jenkins' `Run.setResult`, which keeps the
  worse of the current and the new result; `HttpBackend.Worse` models that
  rule (SUCCESS, UNSTABLE, FAILURE, NOT_BUILT, ABORTED from best to worst), so
  an aborted run stays aborted.

## Model

| member | source | states |
|---|---|---|
| `Binaries.NormalizeParent` | core/src/main/java/com/cloudbees/plugins/binarydeployer/core/Binary.java:60 | an empty parent stays empty; a non-empty one ends in `/`, extends the parent by at most that one character, and is unchanged when it already ends in `/` |
| `Binaries.FromFile` | core/src/main/java/com/cloudbees/plugins/binarydeployer/core/Binary.java:52-54 | `from(file)` keeps the file and names it by its own name, the same Binary as naming it under the empty parent |
| `Binaries.NamedUnder` | core/src/main/java/com/cloudbees/plugins/binarydeployer/core/Binary.java:60-61 | the Binary keeps the file unchanged, its name starts with the parent, ends with the file's name, and what precedes the file's name is the normalised parent |
| `Binaries.From` | core/src/main/java/com/cloudbees/plugins/binarydeployer/core/Binary.java:56-62 | fails with IllegalArgument("Parent shouldn't be null") exactly when the parent is null; otherwise the file is unchanged and the name ends with the file's name |
| `Binaries.FromEmptyParent` | core/src/main/java/com/cloudbees/plugins/binarydeployer/core/Binary.java:52-61 | `from(file, "")` equals `from(file)`, whose name is the file's own name |
| `Binaries.FromInsertsSeparator` | core/src/main/java/com/cloudbees/plugins/binarydeployer/core/Binary.java:60-61 | a non-empty parent without trailing `/` gives `parent + "/" + name` |
| `Binaries.FromNormalizationIdempotent` | core/src/main/java/com/cloudbees/plugins/binarydeployer/core/Binary.java:60 | normalising twice equals normalising once; `from(f, p)` equals `from(f, normalise(p))`; `from(f, "lib")` equals `from(f, "lib/")` and is `"lib/" + name` |
| `Recorder.ChildPrefix` | core/src/main/java/com/cloudbees/plugins/binarydeployer/core/BinaryDeployerRecorder.java:85-87 | with `flatten` the parent name passed down is unchanged; otherwise it is the parent name, a `/` only when that is non-empty, then the directory's name |
| `Recorder.Flatten` | core/src/main/java/com/cloudbees/plugins/binarydeployer/core/BinaryDeployerRecorder.java:79-96 | what `crossDirectories` returns: every Binary in it is built from a leaf, never from a directory (the count and order are `FlattenEmitsLeavesInOrder`) |
| `Recorder.BinaryDeployerRecorder.constructor` | core/src/main/java/com/cloudbees/plugins/binarydeployer/core/BinaryDeployerRecorder.java:56-59 | keeps the repository and the flatten policy |
| `Recorder.BinaryDeployerRecorder.CrossDirectoriesFromRoot` | core/src/main/java/com/cloudbees/plugins/binarydeployer/core/BinaryDeployerRecorder.java:75-77 | the traversal starts from the empty parent name |
| `Recorder.BinaryDeployerRecorder.CrossDirectories` | core/src/main/java/com/cloudbees/plugins/binarydeployer/core/BinaryDeployerRecorder.java:79-96 | the list built by the loop (leaf: add, directory: add all of the recursive call) is exactly `Flatten(files, parentName, flatten)` |
| `Recorder.BinaryDeployerRecorder.Perform` | core/src/main/java/com/cloudbees/plugins/binarydeployer/core/BinaryDeployerRecorder.java:67-73 | POSTs the names of the flattened root through the current HTTP repository, with the outcome, POST log, chosen client and run result of `deploy` on that list, and leaves no client or response open |
| `Recorder.FlattenFollowsLeafPaths` | core/src/main/java/com/cloudbees/plugins/binarydeployer/core/BinaryDeployerRecorder.java:79-96 | for every tree and policy, the i-th Binary is the i-th root-to-leaf path's leaf named under the parent name reached by entering that path's directories |
| `Recorder.FlattenEmitsLeavesInOrder` | core/src/main/java/com/cloudbees/plugins/binarydeployer/core/BinaryDeployerRecorder.java:79-95 | one Binary per leaf; the i-th Binary's file is the i-th leaf in depth-first enumeration order; directories are never emitted |
| `Recorder.FlattenAppend` | core/src/main/java/com/cloudbees/plugins/binarydeployer/core/BinaryDeployerRecorder.java:81-93 | the Binaries of a concatenated listing are the concatenation of the Binaries of its parts, in order |
| `Recorder.FlattenSingle` | core/src/main/java/com/cloudbees/plugins/binarydeployer/core/BinaryDeployerRecorder.java:82-93 | a leaf yields one Binary named under the parent name; a directory yields its children's Binaries under the extended parent name |
| `Recorder.FlattenDirectory` | core/src/main/java/com/cloudbees/plugins/binarydeployer/core/BinaryDeployerRecorder.java:83-89 | a directory's leaves are spliced in at its position; an empty directory contributes nothing |
| `Recorder.PrefixAfterFlattened` | core/src/main/java/com/cloudbees/plugins/binarydeployer/core/BinaryDeployerRecorder.java:85-86 | with `flatten`, entering any directories leaves the parent name unchanged |
| `Recorder.FlattenedNames` | core/src/main/java/com/cloudbees/plugins/binarydeployer/core/BinaryDeployerRecorder.java:85-92 | with `flatten`, every Binary is named by the normalised starting prefix plus its leaf's name; from the root, by the leaf's name alone, at any depth |
| `Recorder.PrefixAfterHierarchy` | core/src/main/java/com/cloudbees/plugins/binarydeployer/core/BinaryDeployerRecorder.java:87 | without `flatten`, entering non-empty directories appends their `/`-joined names to the parent name, with a `/` only after a non-empty parent |
| `Recorder.HierarchicalName` | core/src/main/java/com/cloudbees/plugins/binarydeployer/core/BinaryDeployerRecorder.java:87-92 | a leaf under well-formed directories is named by the `/`-joined directory path and its own name, and the name does not start with `/` |
| `Recorder.HierarchicalNames` | core/src/main/java/com/cloudbees/plugins/binarydeployer/core/BinaryDeployerRecorder.java:75-96 | without `flatten`, from the root, every Binary's name is its path's directories and leaf name joined by `/`, non-empty, with no leading `/` |
| `Recorder.TopLevelLeafNamed` | core/src/main/java/com/cloudbees/plugins/binarydeployer/core/BinaryDeployerRecorder.java:75-92 | under either policy, a top-level leaf becomes `from(file)`, placed after the leaves listed before it |
| `Recorder.LeafBesideDirectory` | core/src/main/java/com/cloudbees/plugins/binarydeployer/core/BinaryDeployerRecorder.java:79-96 | a top-level leaf followed by a directory holding one leaf gives two Binaries, the first named as the leaf, the second under the directory's prefix for the chosen policy |
| `Recorder.SmallTreeExample` | core/src/main/java/com/cloudbees/plugins/binarydeployer/core/BinaryDeployerRecorder.java:79-96 | `a.txt` and `sub/b.txt` give `["a.txt", "sub/b.txt"]` without `flatten` and `["a.txt", "b.txt"]` with it, in that order |
| `Recorder.CollisionsKept` | core/src/main/java/com/cloudbees/plugins/binarydeployer/core/BinaryDeployerRecorder.java:82-93 | two leaves that flatten to the same name are both emitted under that name |
| `Http.NormalizeLocation` | src/main/java/org/jenkinsci/plugins/binarydeployer/HttpRepository.java:72-73 | the location ends in `/`, extends the input by at most that character, and an input already ending in `/` is unchanged |
| `Http.IsSuccessful` | src/main/java/org/jenkinsci/plugins/binarydeployer/HttpRepository.java:115 | a status is accepted exactly when it is in the 2xx class, the codes whose first digit is 2 |
| `Http.PostUrls` | src/main/java/org/jenkinsci/plugins/binarydeployer/HttpRepository.java:108 | one URL per file, in order, each the location followed by the file's name |
| `Http.FirstRefusal` | src/main/java/org/jenkinsci/plugins/binarydeployer/HttpRepository.java:106-121 | the index of the first reply that is not 2xx (or the count when all are): every earlier reply is 2xx |
| `Http.Upload` | src/main/java/org/jenkinsci/plugins/binarydeployer/HttpRepository.java:106-127 | the POSTed URLs are `remoteLocation + name` for a prefix of the names, in order; the upload succeeds iff every reply is 2xx, and then all names are POSTed; on failure every POST but the last was accepted, the last was refused, and the error is that reply's |
| `Http.UploadStopsAtFirstRefusal` | src/main/java/org/jenkinsci/plugins/binarydeployer/HttpRepository.java:114-120 | when the k-th reply is the first refused, exactly the first k + 1 names are POSTed and the error is that reply's |
| `Http.ThirdOfFiveRefused` | src/main/java/org/jenkinsci/plugins/binarydeployer/HttpRepository.java:106-127 | five files with the third answered 500: three POSTs, failure `Rejected(500)`, files four and five never POSTed |
| `Http.UploadNothing` | src/main/java/org/jenkinsci/plugins/binarydeployer/HttpRepository.java:106 | an empty list issues no POST and succeeds |
| `HttpBackend.ChooseClient` | src/main/java/org/jenkinsci/plugins/binarydeployer/HttpRepository.java:89-104 | a null or empty credentials id gives the default client; otherwise the client carries the looked-up credential with automatic retries off and zero retries, or the lookup's null fails the call |
| `HttpBackend.Worse` | src/main/java/org/jenkinsci/plugins/binarydeployer/HttpRepository.java:119 | the result a run keeps after `setResult`: one of the two results, at least as severe as both |
| `HttpBackend.Run.SetResult` | src/main/java/org/jenkinsci/plugins/binarydeployer/HttpRepository.java:119 | the run's result becomes the worse of its old result and the new one |
| `HttpBackend.HttpRepository.constructor` | src/main/java/org/jenkinsci/plugins/binarydeployer/HttpRepository.java:71-75 | the location is normalised to end in `/`; nothing is posted or open |
| `HttpBackend.HttpRepository.Deploy` | src/main/java/org/jenkinsci/plugins/binarydeployer/HttpRepository.java:86-133 | the POST log grows by exactly `Upload`'s URLs and the outcome is `Upload`'s; the run's result becomes the worse of it and FAILURE only on a non-2xx response; a failed credential lookup posts nothing; open clients and responses are back to their count on every exit |
| `LegacyHttpBackend.HTTPRepository.constructor` | src/main/java/org/jenkinsci/plugins/binarydeployer/HTTPRepository.java:53-56 | the location is normalised to end in `/`; nothing is posted or open |
| `LegacyHttpBackend.HTTPRepository.Deploy` | src/main/java/org/jenkinsci/plugins/binarydeployer/HTTPRepository.java:63-87 | the POST log grows by exactly `Upload`'s URLs and the outcome is `Upload`'s; every response is closed; the client it creates is left open |

## Findings

| source | as written | input that shows it | evidently intended | confidence | as-written member | corrected member |
|---|---|---|---|---|---|---|
| src/main/java/org/jenkinsci/plugins/binarydeployer/HTTPRepository.java:64-86 | the client from `HttpClients.createDefault()` is never closed | any call, e.g. an empty file array: one more open client afterwards | the client is closed on every exit path, as the later `HttpRepository` does in a `finally` block | high; not executed | `LegacyHttpBackend.HTTPRepository.Deploy` (ensures open clients grow by one per call) | `HttpBackend.HttpRepository.Deploy` (ensures open clients are unchanged; used by `Perform`) |

## Left out

- The object-store backend (`S3Repository`): its upload is asynchronous and never awaited, so order and failure are decided by the SDK.
- The abstract `Repository` classes and the descriptors (display names, URI validation of the location, credential list boxes): no behaviour beyond signatures, host UI and a foreign URI parser.
- The other build step (`src/.../BinaryDeployerRecorder.java`): it only lists the artifact root and forwards it, with logging.
- Credential storage: `findCredentialById` is a parameter (`CredentialLookup`) giving a username and password or nothing.
- HTTP client internals: body buffering, authentication challenges, stream contents, `file.length()`, the text of the status line (only its code is kept) and logging.
- Exceptions from `VirtualFile.list()` and `VirtualFile.open()`: listing and reading the artifact tree are assumed to succeed; a failing read would abort the traversal or the upload before the POST.
- A null `remoteLocation` given to the constructors (a null pointer exception): locations are strings.
- Concurrency: each `deploy` call is modelled as one sequential call.
- Jenkins' `Run` class is not part of this model: only the keep-the-worse rule of its `setResult` is modelled, not its other checks.
