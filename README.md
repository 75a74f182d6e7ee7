# Verified model of the RAG helpers, the PDF page loop and the rule-based troubleshooter

This project models, in Dafny, the sequential string and list logic of three
Python programs:

- **The question-answering app** (`Sachse_iPhone_RAG/RAG_app.py`, module
  `RagApp`). This covers:
  - the filter that maps vector-search hits back to chunks (`retrieve_chunks`);
  - order-preserving deduplication (`dedupe_preserve_order`);
  - whitespace normalisation (`_normalize_ws`);
  - the select-top-m rule of `rerank_chunks`: drop blank candidates,
    normalise, stable sort by descending score, Python slice `[:m]`, dedupe;
  - the `"\n\n"` join of the passages and the prompt template of
    `_build_qa_prompts`.

  The FAISS search result is an input sequence of indices. The cross-encoder
  is an input function from a (question, passage) pair to an integer score,
  since only comparisons matter. The stable `sorted(..., reverse=True)` is
  modelled as an insertion sort of positions by "higher score first, earlier
  position first".
- **The PDF extractor** (`Sachse_iPhone_RAG/text_extractor.py`, module
  `PdfExtract`). `PdfReader` is given as its outcome: the file cannot be
  opened, or each page yields some text, None, or an exception. The page loop
  is an imperative method. The output-file write is reduced to whether it
  succeeds.
- **The symptom matcher** (`Rule_Based_AI_System_Example/troubleshooting_helper.py`,
  module `Troubleshooter`). This covers:
  - the character-level tokenizer `_normalize`, as a loop method;
  - the two-phase `pick_issue`, as a method with nested loops and an early
    return. The loops run over the tables passed in, so the phases and
    their lemmas hold for any tables; `PickIssue` runs them on the module's
    own tables;
  - the constant tables `TRIGGERS` and `CUES`, as sequences of pairs in
    dict insertion order. Each `CUES` row is a named constant whose words
    have the type `CueWord` (a non-empty lower-case alphanumeric word);
  - the table `ISSUES`, as its keys in insertion order (`IssueKeys`) and a
    lookup of each issue's steps (`Steps`).

Module `Text` holds the Python string primitives shared by all three, all
restricted to ASCII:
- `str.isspace` and regex `\s`;
- `str.strip`;
- `str.split()` without a separator;
- `"sep".join`;
- `re.sub(r"\s+", " ", s).strip()`;
- `str.split("\n\n")`, used as the inverse of the passage join.

Module `Optional` holds `Option`, which plays the part of Python's `None`.

Each imperative piece is a method proved against a specification function:
- `DedupePreserveOrder` against `Dedupe`;
- `ExtractTextFromPdf` against `Parts` and `Join`;
- `Normalize` against `Tokens`;
- `PickPhases` against `PickFrom`, which `PickIssue` uses with the module's tables to compute `Pick`.

The lemmas then state what the source promises about those functions.

The system prompt is kept character for character as the source spells it.
That includes the mis-decoded apostrophe in "don‚Äôt"
(U+201A U+00C4 U+00F4).

## Model

| member | source | states |
|---|---|---|
| `Text.Collapse` | Sachse_iPhone_RAG/RAG_app.py:138 | the `re.sub` step: every whitespace run becomes one space; `NormalizeWsProperties` states its effect after stripping |
| `Text.Words` | Rule_Based_AI_System_Example/troubleshooting_helper.py:142 | `str.split()` without a separator: the maximal runs of non-whitespace; `WordsAreWords`, `WordsChars` and `WordsSpaceSplit` characterise it |
| `Text.Join` | Sachse_iPhone_RAG/RAG_app.py:194 | `sep.join(parts)`, as used for the passage join, the page join of the PDF extractor and the pattern join of the troubleshooter; `JoinAppend` and `SplitJoinParagraphs` characterise it |
| `Text.Strip` | Sachse_iPhone_RAG/RAG_app.py:149 | `str.strip()` is empty exactly for all-whitespace text; otherwise it starts and ends with a non-space |
| `Text.WordsAreWords` | Rule_Based_AI_System_Example/troubleshooting_helper.py:142 | every token of `str.split()` is non-empty and has no whitespace |
| `Text.NormalizeWsProperties` | Sachse_iPhone_RAG/RAG_app.py:136-138 | `_normalize_ws` output has no leading or trailing whitespace; every whitespace run is one space. It keeps the tokens, is idempotent, and is empty exactly for blank input |
| `Text.NormalizeWs` | Sachse_iPhone_RAG/RAG_app.py:136-138 | `_normalize_ws` as a function: collapse every whitespace run to one space, then strip; its properties are the two rows around this one |
| `Text.NormalizeWsJoinsWords` | Sachse_iPhone_RAG/RAG_app.py:138 | collapsing and stripping equals joining the `split()` tokens with single spaces |
| `Text.WordsOfJoin` | Rule_Based_AI_System_Example/troubleshooting_helper.py:249 | splitting words joined by spaces gives back the words |
| `Text.WordsSpaceSplit` | Rule_Based_AI_System_Example/troubleshooting_helper.py:142 | `split()` of `a + " " + b` is the tokens of `a` followed by the tokens of `b`, so order is kept |
| `Text.WordsChars` | Rule_Based_AI_System_Example/troubleshooting_helper.py:142 | tokens consist only of characters the text had outside its whitespace |
| `Text.SplitJoinParagraphs` | Sachse_iPhone_RAG/RAG_app.py:194 | joining newline-free parts with `"\n\n"` and splitting at `"\n\n"` gives back the parts |
| `Text.JoinAppend` | Sachse_iPhone_RAG/text_extractor.py:41 | the join of two non-empty lists is the two joins around one separator |
| `RagApp.Retrieve` | Sachse_iPhone_RAG/RAG_app.py:115-116 | the retrieved chunks are chunks of the index, at most one per hit |
| `RagApp.RetrieveAppend` | Sachse_iPhone_RAG/RAG_app.py:116 | hits are filtered one by one, in search order |
| `RagApp.RetrieveInRange` | Sachse_iPhone_RAG/RAG_app.py:116 | with every hit in range, the result is `chunks[i]` for each hit `i`, in order |
| `RagApp.RetrieveOutOfRange` | Sachse_iPhone_RAG/RAG_app.py:116 | out-of-range hits such as FAISS's `-1` padding are dropped |
| `RagApp.RetrieveCount` | Sachse_iPhone_RAG/RAG_app.py:112-116 | for a FAISS answer (k hits, padded with -1 past the index size) exactly min(k, chunk count) chunks come back |
| `RagApp.Dedupe` | Sachse_iPhone_RAG/RAG_app.py:126-134 | the result is duplicate-free, no longer than the input, and has the input's elements |
| `RagApp.DedupeDistinct` | Sachse_iPhone_RAG/RAG_app.py:126-134 | a duplicate-free input is returned unchanged |
| `RagApp.DedupeFirstOccurrenceOrder` | Sachse_iPhone_RAG/RAG_app.py:126-134 | the kept elements are in the order of their first occurrences |
| `RagApp.DedupePreserveOrder` | Sachse_iPhone_RAG/RAG_app.py:126-134 | the loop with its `seen` set computes `Dedupe` |
| `RagApp.Insert` | Sachse_iPhone_RAG/RAG_app.py:159 | inserting a position adds exactly that position to the multiset |
| `RagApp.InsertSorted` | Sachse_iPhone_RAG/RAG_app.py:159 | inserting into a list sorted by (score descending, position ascending) keeps it sorted |
| `RagApp.SortDesc` | Sachse_iPhone_RAG/RAG_app.py:159 | sorting is a permutation of the positions |
| `RagApp.Ranking` | Sachse_iPhone_RAG/RAG_app.py:159 | the stable descending sort of all positions by score; it yields positions of the scored list, and `RankingIsStableSort` gives the order |
| `RagApp.SortDescSorted` | Sachse_iPhone_RAG/RAG_app.py:159 | the sort output is ordered by descending score, ties by original position |
| `RagApp.RankingIsStableSort` | Sachse_iPhone_RAG/RAG_app.py:159 | the ranking is a permutation of all positions, in descending score with equal scores in input order |
| `RagApp.SortDescEqualScores` | Sachse_iPhone_RAG/RAG_app.py:159 | with all scores equal the sort changes nothing (stability) |
| `RagApp.Cleaned` | Sachse_iPhone_RAG/RAG_app.py:149 | cleaning keeps at most one entry per candidate |
| `RagApp.CleanedEmpty` | Sachse_iPhone_RAG/RAG_app.py:149-152 | the cleaned list is empty exactly when every candidate is empty or blank |
| `RagApp.CleanedFrom` | Sachse_iPhone_RAG/RAG_app.py:149 | each cleaned entry is `_normalize_ws(c)` of some non-blank candidate `c` |
| `RagApp.FilterMapSingle` | Sachse_iPhone_RAG/RAG_app.py:149 | a one-element list comprehension holds `f(x)` exactly when `x` passes the filter |
| `RagApp.FilterMapAppend` | Sachse_iPhone_RAG/RAG_app.py:149 | the comprehension over `a + b` is the comprehension over `a` followed by the one over `b` |
| `RagApp.CleanedSingle` | Sachse_iPhone_RAG/RAG_app.py:149 | a single candidate is kept, normalised, exactly when it is neither empty nor whitespace-only |
| `RagApp.CleanedAppend` | Sachse_iPhone_RAG/RAG_app.py:149 | cleaning `a + b` gives the cleaned `a` then the cleaned `b`, so input order is kept |
| `RagApp.CleanedKeeps` | Sachse_iPhone_RAG/RAG_app.py:149 | every non-blank candidate reaches the cleaned list as its normalisation |
| `RagApp.ScoreAll` | Sachse_iPhone_RAG/RAG_app.py:155-156 | one score per pair of the batch handed to the scorer, in batch order |
| `RagApp.ScorerCalls` | Sachse_iPhone_RAG/RAG_app.py:151-156 | the scorer is called at most once, only when the cleaned list is non-empty, on one (question, passage) pair per cleaned passage in order |
| `RagApp.PyTake` | Sachse_iPhone_RAG/RAG_app.py:159 | Python's `[:m]` is a prefix of length min(m, n) for m >= 0 and max(n + m, 0) for negative m |
| `RagApp.Select` | Sachse_iPhone_RAG/RAG_app.py:160 | the selected passages are the cleaned passages at the ranked positions |
| `RagApp.TopPositions` | Sachse_iPhone_RAG/RAG_app.py:159 | the `[:m]` cut of the ranking holds positions of the scored list |
| `RagApp.RerankAllBlank` | Sachse_iPhone_RAG/RAG_app.py:149-152 | the scorer is called exactly when some candidate is non-blank. If all are blank the result is `[]`; for m > 0 this is the only way to get `[]` |
| `RagApp.RerankBounds` | Sachse_iPhone_RAG/RAG_app.py:159-163 | the output is no longer than m or the non-blank count, has no duplicates, and each element is `_normalize_ws(c)` of a non-blank candidate |
| `RagApp.Rerank` | Sachse_iPhone_RAG/RAG_app.py:140-163 | `rerank_chunks` as a function: nothing when no scorer batch is made; otherwise the batch's scores rank the cleaned candidates; every returned passage is one of them |
| `RagApp.RerankKeepsTop` | Sachse_iPhone_RAG/RAG_app.py:159-163 | the cut keeps all of the best m: the cleaned candidate at each of the first m ranked positions is returned |
| `RagApp.RerankWithinTop` | Sachse_iPhone_RAG/RAG_app.py:159-163 | only the top m compete: every returned passage is the cleaned candidate at one of the first m ranked positions, so duplicates among those positions use up slots |
| `RagApp.RerankTop` | Sachse_iPhone_RAG/RAG_app.py:156-160 | the cut keeps the best: a cleaned candidate that scores higher than some returned passage, or scores the same and appears earlier among the cleaned candidates, is returned too |
| `RagApp.RerankNormalized` | Sachse_iPhone_RAG/RAG_app.py:149 | every output passage is non-empty and whitespace-normalised |
| `RagApp.RerankOrder` | Sachse_iPhone_RAG/RAG_app.py:159-160 | output scores do not increase; equal-score passages come in the order they first appear among the cleaned candidates |
| `RagApp.DedupeConstant` | Sachse_iPhone_RAG/RAG_app.py:126-134 | deduplicating copies of one value leaves one copy |
| `RagApp.RerankWhitespaceVariants` | Sachse_iPhone_RAG/RAG_app.py:149-163 | when some candidate is non-blank and every non-blank candidate normalises to the same passage, exactly that one passage comes back (blank candidates are ignored) |
| `RagApp.RerankEqualScores` | Sachse_iPhone_RAG/RAG_app.py:159-163 | when the scorer gives every cleaned candidate the same score, the output is the deduplicated first m cleaned candidates, so duplicates in the top m use up slots |
| `RagApp.BuildQaPrompts` | Sachse_iPhone_RAG/RAG_app.py:168-184 | the system prompt is the fixed constant; the user prompt is `"Context:\n"`, the context, then `"\n\nQuestion: "`, the question and `"\n\nAnswer:"` |
| `RagApp.AnswerPromptsCarryPassages` | Sachse_iPhone_RAG/RAG_app.py:192-195 | the prompt holds at most `top_m` passages joined by blank lines, and splitting the context at blank lines gives them back |
| `RagApp.AnswerPrompts` | Sachse_iPhone_RAG/RAG_app.py:187-195 | `answer_question` up to the generator call: the system prompt is the fixed constant and the user prompt starts with the context header |
| `PdfExtract.PagePart` | Sachse_iPhone_RAG/text_extractor.py:32-37 | a page adds at most one part, and none exactly when extraction failed or gave None or `""` |
| `PdfExtract.PagePartNormalized` | Sachse_iPhone_RAG/text_extractor.py:34-37 | a page's part is whitespace-normalised, keeps the page's tokens, and is `""` exactly for whitespace-only text |
| `PdfExtract.Parts` | Sachse_iPhone_RAG/text_extractor.py:30-39 | there are no more parts than pages |
| `PdfExtract.ExtractTextFromPdf` | Sachse_iPhone_RAG/text_extractor.py:24-50 | an unreadable PDF gives `""`; otherwise the result is the `"\n\n"` join of the parts. It does not depend on the file write, and the file receives the result when the write succeeds |
| `PdfExtract.PartsAppend` | Sachse_iPhone_RAG/text_extractor.py:31-39 | parts come page by page, in page order |
| `PdfExtract.PageSkipped` | Sachse_iPhone_RAG/text_extractor.py:32-39 | a failing, None or empty page contributes nothing and the pages after it are still processed |
| `PdfExtract.PartsNormalized` | Sachse_iPhone_RAG/text_extractor.py:36-37 | every part is whitespace-collapsed and trimmed |
| `PdfExtract.BlankPageDoublesSeparator` | Sachse_iPhone_RAG/text_extractor.py:34-41 | a whitespace-only page passes the emptiness check and adds `""`, which doubles the separator between its neighbours |
| `PdfExtract.CombinedSplitsIntoParts` | Sachse_iPhone_RAG/text_extractor.py:41 | when there is at least one part, splitting the result at blank lines gives back exactly the parts |
| `Troubleshooter.LowerChar` | Rule_Based_AI_System_Example/troubleshooting_helper.py:130 | lower-casing maps each capital to the lower-case letter at the same place in the alphabet, leaves every other character alone, and so leaves no capital |
| `Troubleshooter.Clean` | Rule_Based_AI_System_Example/troubleshooting_helper.py:130-140 | the lowered, quote-mapped, scrubbed text, one character per input character |
| `Troubleshooter.TokensIgnoreCase` | Rule_Based_AI_System_Example/troubleshooting_helper.py:130 | lower-casing the input beforehand changes no token, so matching ignores case |
| `Troubleshooter.Normalize` | Rule_Based_AI_System_Example/troubleshooting_helper.py:129-143 | the lower / quote / clean loop / split / filter pipeline yields `Tokens(text)` |
| `Troubleshooter.Tokens` | Rule_Based_AI_System_Example/troubleshooting_helper.py:129-143 | the reference definition of `_normalize`'s result: the `split()` words of the cleaned text; `Normalize` computes it and `TokensLowerAlnum` bounds it |
| `Troubleshooter.NonEmptyKeepsWords` | Rule_Based_AI_System_Example/troubleshooting_helper.py:142 | the `if w` filter removes nothing from a `split()` result |
| `Troubleshooter.TokensLowerAlnum` | Rule_Based_AI_System_Example/troubleshooting_helper.py:129-143 | every token is non-empty and made only of lower-case letters and digits |
| `Troubleshooter.TokensSpaceJoin` | Rule_Based_AI_System_Example/troubleshooting_helper.py:129-143 | the tokens of `a + " " + b` are the tokens of `a` then those of `b`, so input order is kept |
| `Troubleshooter.LowerAlnumWordTokens` | Rule_Based_AI_System_Example/troubleshooting_helper.py:259 | a lower-case alphanumeric word normalises to exactly itself, so `_normalize(w)[0]` exists for every cue word |
| `Troubleshooter.ApostropheSplits` | Rule_Based_AI_System_Example/troubleshooting_helper.py:132-140 | a straight or curly apostrophe between two words splits them into two tokens |
| `Troubleshooter.PunctuationSplits` | Rule_Based_AI_System_Example/troubleshooting_helper.py:134-140 | a punctuation character (neither alphanumeric nor whitespace) splits the text: the tokens around it are the tokens before it then those after it, with nothing glued together or lost |
| `Troubleshooter.CantSplits` | Rule_Based_AI_System_Example/troubleshooting_helper.py:132-140 | `"can't"` and `"can’t"` both give `["can", "t"]` |
| `Troubleshooter.PatternMatchesWords` | Rule_Based_AI_System_Example/troubleshooting_helper.py:249-250 | joining a pattern's words before normalising changes nothing: it matches exactly when every token of every one of its words is an input token |
| `Troubleshooter.PatternMatchesLowerAlnum` | Rule_Based_AI_System_Example/troubleshooting_helper.py:249-250 | a pattern of lower-case alphanumeric words matches exactly when each of its words is an input token |
| `Troubleshooter.CueScore` | Rule_Based_AI_System_Example/troubleshooting_helper.py:256-260 | an issue's cue score is at most its number of cue words |
| `Troubleshooter.PatternHit` | Rule_Based_AI_System_Example/troubleshooting_helper.py:249-250 | normalising one joined pattern and testing `issubset` decides whether that pattern AND-matches |
| `Troubleshooter.AnyPatternMatches` | Rule_Based_AI_System_Example/troubleshooting_helper.py:247-251 | the pattern loop finds a match exactly when some pattern of the issue AND-matches |
| `Troubleshooter.CountCueHits` | Rule_Based_AI_System_Example/troubleshooting_helper.py:256-260 | the loop that looks up `_normalize(w)[0]` of each cue word computes the plain count of cue words present among the tokens |
| `Troubleshooter.FirstToken` | Rule_Based_AI_System_Example/troubleshooting_helper.py:259 | `_normalize(w)[0]` exists for every cue word and is the word itself |
| `Troubleshooter.PickIssue` | Rule_Based_AI_System_Example/troubleshooting_helper.py:240-266 | `pick_issue` computes `Pick` of the set of input tokens |
| `Troubleshooter.PickPhases` | Rule_Based_AI_System_Example/troubleshooting_helper.py:245-266 | the trigger loop with its early return, then the cue loop with its strict `>`, compute `PickFrom` of the tables and the token set |
| `Troubleshooter.FirstTrigger` | Rule_Based_AI_System_Example/troubleshooting_helper.py:246-251 | phase 1 as a function: the first issue, in table order, with a pattern all of whose tokens are input tokens; `FirstTriggerSpec` and `FirstTriggerIsFirst` characterise it |
| `Troubleshooter.FirstTriggerSpec` | Rule_Based_AI_System_Example/troubleshooting_helper.py:246-251 | phase 1 gives None exactly when no issue has a matching pattern; otherwise it gives the first issue that has one |
| `Troubleshooter.FirstTriggerIsFirst` | Rule_Based_AI_System_Example/troubleshooting_helper.py:246-251 | the first issue in `TRIGGERS` order with a matching pattern is the one returned |
| `Troubleshooter.CueFold` | Rule_Based_AI_System_Example/troubleshooting_helper.py:254-263 | phase 2 as a fold over the cue table with the strict `>` update; `CueFoldSpec`, `CueFoldKeeps` and `CueFoldBeats` characterise it |
| `Troubleshooter.CueFoldSpec` | Rule_Based_AI_System_Example/troubleshooting_helper.py:254-263 | the strict-`>` loop ends with the maximum score and the first issue reaching it, or keeps what it held when nothing beats that |
| `Troubleshooter.CueFoldKeeps` | Rule_Based_AI_System_Example/troubleshooting_helper.py:254-263 | when no remaining score beats the one held, the loop keeps its issue and score |
| `Troubleshooter.CueFoldBeats` | Rule_Based_AI_System_Example/troubleshooting_helper.py:254-263 | when some remaining score beats the one held, the loop ends with the maximum and the first issue reaching it |
| `Troubleshooter.PickByTrigger` | Rule_Based_AI_System_Example/troubleshooting_helper.py:246-251 | a matching trigger pattern decides the result, and cues are not consulted |
| `Troubleshooter.PickByCues` | Rule_Based_AI_System_Example/troubleshooting_helper.py:254-266 | with no matching pattern the result is the first issue with maximal cue score (ties go to the earlier issue), or None when the maximum is 0 |
| `Troubleshooter.PickNone` | Rule_Based_AI_System_Example/troubleshooting_helper.py:265-266 | None is returned exactly when no pattern matches and every cue score is 0 |
| `Troubleshooter.PickFromKeys` | Rule_Based_AI_System_Example/troubleshooting_helper.py:240-266 | when both tables list the same keys in order, every non-None result is one of those keys |
| `Troubleshooter.Steps` | Rule_Based_AI_System_Example/troubleshooting_helper.py:6-125 | each issue's step texts, character for character and in table order; `[]` for a name that is not a key |
| `Troubleshooter.TriggerKeysAgree` | Rule_Based_AI_System_Example/troubleshooting_helper.py:6-213 | `ISSUES` and `TRIGGERS` have the same 20 keys in the same order |
| `Troubleshooter.CueKeysAgree` | Rule_Based_AI_System_Example/troubleshooting_helper.py:6-237 | `ISSUES` and `CUES` have the same 20 keys in the same order |
| `Troubleshooter.PickIsIssue` | Rule_Based_AI_System_Example/troubleshooting_helper.py:240-266 | every non-None result is a key of `ISSUES` |
| `Troubleshooter.PickFrom` | Rule_Based_AI_System_Example/troubleshooting_helper.py:240-266 | the two phases as a function of the tables and the token set: the first triggered issue, else the first best cue scorer when its score is positive; `PickPhases` computes it and the `Pick…` lemmas characterise it |
| `Troubleshooter.Pick` | Rule_Based_AI_System_Example/troubleshooting_helper.py:240-266 | `pick_issue` on the module's own tables as a function of the input token set; `PickIssue` computes it and `PickIsIssue` bounds it |
| `Troubleshooter.TokenSetIgnoresOrder` | Rule_Based_AI_System_Example/troubleshooting_helper.py:241-242 | the token set of two texts joined by a space is the union of their token sets, whatever their order, and repeating a text adds nothing |
| `Troubleshooter.PickIgnoresOrder` | Rule_Based_AI_System_Example/troubleshooting_helper.py:241-242 | swapping two parts of the input or repeating one never changes the result |
| `Troubleshooter.PickNoInternet` | Rule_Based_AI_System_Example/troubleshooting_helper.py:146-148 | the input "no internet" matches the first trigger pattern and yields "no internet" |

## Left out

- Chunking with the text splitter of `RAG_app.py`: its behaviour lives in a library that is not shown.
- Embedding, the FAISS index build and the nearest-neighbour search: these are floating-point numerics in foreign libraries. The search result is an input sequence of indices.
- The cross-encoder: it is an input scoring function to `int`. Float scores, NaN and equal floats that print differently are not modelled.
- The OpenAI chat call, environment loading and logging in `answer_question`: these are network and environment concerns. The model stops at the two prompts.
- File reading and writing: loading the chunks, `PdfReader` internals, and writing `Selected_Document.txt`, whose success is an input flag.
- Printing, the `main` functions, `troubleshoot` and the interactive loop of `troubleshooting_helper.py`: they are console I/O.
- `Image_Classification`: numeric image code over external libraries.
- Unicode beyond ASCII. `str.lower`, `str.isalnum`, `str.isspace` and regex `\s` act on ASCII only. A letter such as "é", which Python keeps in a token, becomes a space here. Case mappings that change the length of a string are not modelled.
- Troubleshooter.Pick: the result for an empty cue-word normalisation (an `IndexError` in Python) is not modelled. The type `CueWord` rules this case out, because no cue word of the table normalises to nothing.
- The step lookup `ISSUES[issue]` in `troubleshoot`: `Steps` keeps the step texts as data, but no lemma states that every picked issue has steps to show. Unfolding all the step texts at once is beyond the solver's resource limit.
