# Objective-C scanner: comment analyser and single-file scan

A Dafny model of the verifiable core of `ObjectiveCAstScanner` from the Sonar
Objective-C plugin:

- the comment analyser that `create` installs in the scanner
  (`comment_analysis.dfy`, module `CommentAnalysis`): `isBlank`, which tells
  whether a line of comment text holds no letter or digit, and `getContents`,
  which strips a comment's delimiters: a comment starting with `//` loses its
  first two characters, and any other comment loses two characters at each end;
- the guards of `scanSingleFile` (`single_file_scan.dfy`, module
  `SingleFileScan`): a path that is not a regular file is rejected with an
  illegal-argument error, and the file is not read. Otherwise a fresh scanner
  scans the file. Its index starts with the project `"Objective-C Project"`.
  The call then succeeds only if a query of that index by the source-file
  type finds exactly one entity, and it returns that entity. Any other count
  is an illegal-state error that carries the count. `create` never registers
  the visitors passed to `scanSingleFile`, so they are not run; see
  "## Findings".

`isBlank` is a method with a loop, proved against the predicate `Blank`. Its
ghost result says where the scan stopped: at the first letter or digit, or at
the end of the line. `getContents` is a function, and its inverses are the
line and block comments built from a content (`LineComment`, `BlockComment`).

The index stores each entity under its key, so registering an entity under a
key already present replaces the earlier one (`Put`). A query by type
(`Query`) returns the set of stored entities of that kind. The index, the
visitors, the file system and the scanner are classes whose methods update
their fields.

Two inputs stand for code outside this model. A `FileSystem` object holds the
set of paths that are regular files (`File.isFile`) and a log of the files the
parser has read. The sequence `produced` holds the entities that the parser
registers while scanning the file, in order.

The code strips two characters from each end of every comment that does not
start with `//`, without checking that they are `/*` and `*/`. The model does
the same on Dafny characters. Only comments really delimited by `/*` and `*/`
are rebuilt by `BlockComment`.

## Model

| member | source | states |
|---|---|---|
| CommentAnalysis.IsBlank | src/main/java/org/sonar/objectivec/ObjectiveCAstScanner.java:76-83 | the answer is true iff no character of the line is a letter or digit; on false the scan stopped at that letter or digit, with none before it; on true it read the whole line |
| CommentAnalysis.BlankConcat | src/main/java/org/sonar/objectivec/ObjectiveCAstScanner.java:76-83 | a concatenation is blank iff both parts are blank |
| CommentAnalysis.IsLineComment | src/main/java/org/sonar/objectivec/ObjectiveCAstScanner.java:87 | `startsWith("//")`: true iff the comment has at least two characters and both of the first two are `/` |
| CommentAnalysis.GetContents | src/main/java/org/sonar/objectivec/ObjectiveCAstScanner.java:87 | a comment starting with `//` is its first two characters followed by the result, which is two shorter; any other comment (four characters or more) is its first two characters, the result and its last two characters, the result being four shorter |
| CommentAnalysis.LineCommentContents | src/main/java/org/sonar/objectivec/ObjectiveCAstScanner.java:87 | `"//" + c` is a line comment and its contents are exactly `c` |
| CommentAnalysis.BlockCommentContents | src/main/java/org/sonar/objectivec/ObjectiveCAstScanner.java:87 | `"/*" + c + "*/"` is never taken for a line comment and its contents are exactly `c` |
| CommentAnalysis.LineCommentFromContents | src/main/java/org/sonar/objectivec/ObjectiveCAstScanner.java:87 | every line comment is `"//"` followed by its contents |
| CommentAnalysis.BlockCommentFromContents | src/main/java/org/sonar/objectivec/ObjectiveCAstScanner.java:87 | every comment of four or more characters delimited by `/*` and `*/` is rebuilt from its contents |
| CommentAnalysis.ContentsBlank | src/main/java/org/sonar/objectivec/ObjectiveCAstScanner.java:76-87 | the contents of a blank comment are blank; when the stripped delimiters hold no letter or digit, the contents are blank iff the comment is |
| CommentAnalysis.DelimitersAreBlank | src/main/java/org/sonar/objectivec/ObjectiveCAstScanner.java:76-87 | a line or block comment built from a content is blank iff the content is |
| CommentAnalysis.Samples | src/main/java/org/sonar/objectivec/ObjectiveCAstScanner.java:76-88 | `"   "`, `"*"` and `""` are blank, `"a"` is not; `"// hello"` yields `" hello"`, `"/* hi */"` yields `" hi "`, `"//"` and `"/**/"` yield the empty string |
| SingleFileScan.Put | src/main/java/org/sonar/objectivec/ObjectiveCAstScanner.java:55 | registering entities in an index adds exactly their keys; keys they do not use keep their entities; every registered key holds one of the registered entities, namely the last one registered under that key; an index whose entries sit under their own keys stays that way |
| SingleFileScan.Query | src/main/java/org/sonar/objectivec/ObjectiveCAstScanner.java:56 | a query by type answers exactly the stored entities of that kind, each the one stored under its own key |
| SingleFileScan.Root | src/main/java/org/sonar/objectivec/ObjectiveCAstScanner.java:64 | a session's index starts with only the project key and holds no source file |
| SingleFileScan.SourceIndex.constructor | src/main/java/org/sonar/objectivec/ObjectiveCAstScanner.java:64 | a new index holds only the given project entity, under its key |
| SingleFileScan.SourceIndex.Index | src/main/java/org/sonar/objectivec/ObjectiveCAstScanner.java:55 | the new index is the old one with the registered entities put in by key |
| SingleFileScan.AstScanner.constructor | src/main/java/org/sonar/objectivec/ObjectiveCAstScanner.java:63-64 | a new scanner owns a fresh index that holds only the project entity `"Objective-C Project"`, and holds exactly the visitors registered with it; `create` as written registers none of the caller's visitors |
| SingleFileScan.AstScanner.ScanFile | src/main/java/org/sonar/objectivec/ObjectiveCAstScanner.java:55 | scanning reads the file, runs the registered visitors over it (none as written), and puts the entities registered for it into the index by key |
| SingleFileScan.ScanSingleFile | src/main/java/org/sonar/objectivec/ObjectiveCAstScanner.java:50-61 | a path that is not a regular file gives an illegal-argument error naming it, and the file system is unchanged: nothing is read; otherwise the file is read, and the call succeeds iff the query for source files finds exactly one, which it returns; a count of zero or more than one gives an illegal-state error carrying the count; the caller's visitors are unchanged on every path |
| SingleFileScan.CheckOneFile | src/main/java/org/sonar/objectivec/ObjectiveCAstScanner.java:56-60 | an index with exactly one source file gives that file; any other count gives an illegal-state error carrying the count |
| SingleFileScan.VisitorsNotRun | src/main/java/org/sonar/objectivec/ObjectiveCAstScanner.java:50-63 | scanning the regular file `a.m`, which registers one source file, accepts it and reads it, but leaves the given visitors with nothing visited |
| SingleFileScan.ScanSingleFileWithChecks | src/main/java/org/sonar/objectivec/ObjectiveCAstScanner.java:47-61 | the same guards and outcome as `ScanSingleFile`, and in addition the caller's visitors are run over a regular file that is scanned, and left unchanged when the path is rejected |
| SingleFileScan.VisitorsRun | src/main/java/org/sonar/objectivec/ObjectiveCAstScanner.java:47-61 | with the visitors registered, the same scan of `a.m` runs them over `a.m` |
| SingleFileScan.NoFileRejected | src/main/java/org/sonar/objectivec/ObjectiveCAstScanner.java:56-58 | a scan that registers no source file leaves the query empty, so the count is 0 |
| SingleFileScan.OneFileAccepted | src/main/java/org/sonar/objectivec/ObjectiveCAstScanner.java:56-60 | a scan that registers one source file plus finer units under other keys is answered by exactly that file, also when the file is registered twice |
| SingleFileScan.OnlyFile | src/main/java/org/sonar/objectivec/ObjectiveCAstScanner.java:56-60 | when every source file registered is the same entity, under a key no other entity takes, the query finds exactly that one |
| SingleFileScan.TwoFilesRejected | src/main/java/org/sonar/objectivec/ObjectiveCAstScanner.java:56-58 | two source files under different keys give a count of 2 |

## Left out

- CommentAnalysis.IsLetterOrDigit: an ASCII approximation of `Character.isLetterOrDigit`. A non-ASCII letter or digit of the Basic Multilingual Plane (an accented letter, say) counts as a letter or digit in Java, which tests each UTF-16 unit, but not in the model.
- CommentAnalysis.GetContents: Dafny strings are sequences of Unicode scalar values, while Java's `length()` and `substring` count UTF-16 code units. A character outside the Basic Multilingual Plane is one character in the model and two units in Java. So for a comment with such a character within two places of either end, the result and the length test differ. For `"abc😀"` the model gives `""` while Java gives `"c"`.
- CommentAnalysis.GetContents: requires a comment that does not start with `//` to have at least four characters. For a shorter one Java's `substring` throws `StringIndexOutOfBoundsException`, and the model does not represent that exception. The grammar's block comments are never that short.
- SingleFileScan.Put: the index semantics (one entity per key, a later registration replacing an earlier one, a set as the query answer) follow the library's index, which is not part of this model.
- The builder wiring in `create` (lines 63-104) is left out: the parser, the metrics enum, the files metric and the `LinesVisitor`, `LinesOfCodeVisitor` and `CommentsVisitor` registrations. These are library classes whose code is not part of this model. Only the comment analyser and the fresh project index are modelled.
- Header-comment exclusion and NOSONAR handling (lines 99-100) happen inside the library's `CommentsVisitor`. This file only passes flags, so they are left out.
- The Objective-C grammar and parser (`ObjectiveCParser`, `ObjectiveCGrammar`) are not part of this model. Their whole effect on a scan is the input `produced`, and a parse error inside the library scanner is not modelled.
- `File.isFile` is membership in the `FileSystem` object's set of regular files, and reading a file is an entry in its log. No real file-system access is modelled.
- Visitors are modelled only as the list of files they have been run over. Their metrics are left out, and their writes to the index are part of `produced`.
- The text of the exception messages is not modelled. The errors carry only the path and the count that the messages would include.

## Findings

| source | as written | input that shows it | evidently intended | confidence | as-written member | corrected member |
|---|---|---|---|---|---|---|
| src/main/java/org/sonar/objectivec/ObjectiveCAstScanner.java:63-104 | `create` takes the caller's visitors but never passes them to the builder. Only the three metric visitors are registered (lines 95-101), so `scanSingleFile` never runs the visitors it is given | a regular file `a.m` whose scan registers one source file, with any visitors: the scan accepts `a.m`, and the visitors have visited nothing | the helper for testing checks (lines 47-50) registers the visitors it is given, and they are run over the scanned file | medium; not executed | SingleFileScan.VisitorsNotRun | SingleFileScan.ScanSingleFileWithChecks |
