# vietnamese-word-segment, modelled in Dafny

`WordSegments` segments Vietnamese text into words with a token-classification
model. A construction does three things:

- It loads, or reuses, a process-wide cache holding three artifacts: the
  tokenizer, the model and the inference pipeline.
- It runs the pipeline on the texts.
- It rebuilds words from the pipeline's `(word, entity)` records.

Unless `case=True` is passed, every word is then lowercased.

The project models two parts of `vwsegment/word_segments.py`:

- **Reconstruction** (`_segment`, plus the case folding in `__init__`).
  - Each document's records are folded into an accumulator string:
    - a fragment containing `##` is appended with every `##` removed;
    - other fragments are appended after `_` when labelled `I`, and after a
      space otherwise.
  - The accumulator is then stripped and split on whitespace.
  - Module `Segmenter` follows the source's two nested loops. The outer loop is
    the method `Segment`, and each pass of it is `SegmentOne`. The inner loop
    is `Reconstruct`, and its body, with the source's three branches, is
    `AddPiece`. Each method is proved against a function: `Map` of
    `SegmentDoc`, `SegmentDoc`, `Accumulate` and `Piece`.
  - Module `Text` holds the Python string operations this needs:
    `'##' in s`, `replace('##', '')`, `strip()`, `split()` and a
    per-character `lower()`. Whitespace is exactly the set of characters
    Python's `str.isspace` accepts.
  - `Text` also defines `JoinSpace` (joining words with single spaces) and
    `Collapse` (replacing each whitespace run with one space). The source
    calls neither. They are reference definitions for stating what the words
    of a text are (`JoinSplit`, `SplitJoin`).
- **Cache invalidation** (`_load_model` and the three `_needs_reload_*`
  predicates), in module `ModelCache`.
  - The class-level attributes are fields of the class `Cache`. An attribute
    that was never set (`hasattr` false) is `None`.
  - `LoadModel` mirrors the source step by step:
    - it refuses any language but `"vi"` first;
    - it takes the three decisions on the current attributes;
    - it then rebuilds the tokenizer, then the model, then the pipeline. The
      pipeline is rebuilt whenever any decision says so.
  - `LoadModel` is proved against the pure function `Loaded`. The lemmas
    about `Loaded` state the caching guarantees.
  - Each artifact is an abstract value. It records the arguments it was built
    from and a serial number, so a rebuild is visible even when it is built
    from equal arguments. Three counters stand for call counts on the three
    loaders.

`Segmenter.Create` puts both together into one construction. The pipeline's
inference is a function parameter `infer`. `lower` is a parameter mapping one
character to its lowercase.

Two behaviours of the code worth knowing:

- `_needs_reload_tokenizer` receives `max_length` but never compares it
  (`vwsegment/word_segments.py:127-132`). `NeedsReloadTokenizer` keeps this,
  and `StaleTokenizerMaxLength` shows the consequence. After a change of
  `maxLength` alone, the pipeline still runs the tokenizer built for the old
  length, while the recorded `max_length` is the new one.
- Fragments are used as the pipeline returns them. Only `##` is removed
  (`vwsegment/word_segments.py:78-79`), so any other marker character stays
  in the word. The example lemmas (`BeginThenInside`, `BeginThenMarker`) are
  stated for any fragments.

## Model

| member | source | states |
|---|---|---|
| Text.IsWhitespace | vwsegment/word_segments.py:84 | The whitespace test behind `strip()` and `split()`: exactly the characters `str.isspace` accepts. Its consequences are proved in `TrimStart`, `TrimEnd`, `Split` and `JoinSplit`. |
| Text.HasMarker | vwsegment/word_segments.py:78 | `'##' in word`: some position holds `#` followed by `#`. `RemoveMarkers` is proved to leave no such position. |
| Text.RemoveMarkers | vwsegment/word_segments.py:78-79 | `word.replace('##', '')` leaves no `##` behind. It returns a word without `##` unchanged. It keeps the first character unless the word starts with `##`. |
| Text.RemoveMarkersFirst | vwsegment/word_segments.py:79 | `replace('##', '')` deletes the leftmost occurrence and resumes after it: a prefix without `##` that cannot form one with the next `#` is kept whole, and the rest is processed alone. Together with `RemoveMarkers` returning a word without `##` unchanged, this fixes the result on every input, so a `#` outside an occurrence is kept. |
| Text.RemoveMarkersDeletesPairs | vwsegment/word_segments.py:79 | The replacement deletes only `#` characters, an even number of them. Every other character is kept, in order. |
| Text.Strip | vwsegment/word_segments.py:84 | The result of `strip()` neither starts nor ends with whitespace. |
| Text.TrimStart | vwsegment/word_segments.py:84 | The result of `lstrip()` is a suffix of the input. What it drops is all whitespace. It does not start with whitespace. |
| Text.TrimEnd | vwsegment/word_segments.py:84 | The result of `rstrip()` is a prefix of the input. What it drops is all whitespace. It does not end with whitespace. |
| Text.Split | vwsegment/word_segments.py:84 | Every word `split()` returns is non-empty and has no whitespace. No words come back exactly when the text is all whitespace. |
| Text.SplitStrip | vwsegment/word_segments.py:84 | Splitting after `strip()` gives the same words as splitting the unstripped text. |
| Text.JoinSplit | vwsegment/word_segments.py:84 | The words joined by single spaces are the stripped text with each whitespace run collapsed to one space. |
| Text.SplitJoin | vwsegment/word_segments.py:84 | Splitting words joined by single spaces gives those words back. |
| Text.SplitSpaceAppend | vwsegment/word_segments.py:82-84 | A space between two texts separates their words: `(x + ' ' + y).split()` is `x.split() + y.split()`. |
| Text.SplitGlue | vwsegment/word_segments.py:78-84 | A word glued right after a visible character extends the last word and adds no word. |
| Text.Lower | vwsegment/word_segments.py:62 | `lower()` keeps the length and maps each character through the lowercase map. |
| Segmenter.Piece | vwsegment/word_segments.py:78-83 | What one record adds to `tokens`, by the three branches. Its contents are proved in `PieceContents`, and `AddPiece` is proved equal to it. |
| Segmenter.Accumulate | vwsegment/word_segments.py:75-83 | The accumulator after the records of a document in order, as a left fold over `Piece`. `Reconstruct` is proved equal to it, and `AccumulateStep` and `AccumulateAppend` state its laws. |
| Segmenter.PieceContents | vwsegment/word_segments.py:78-83 | A token holding `##` adds its fragment with the `##` removed and no separator. Any other token adds `_` before its fragment when labelled `I`, and a space otherwise. |
| Segmenter.AccumulateStep | vwsegment/word_segments.py:76-83 | Each record grows the accumulator by exactly its piece, appended at the end. |
| Segmenter.AccumulateAppend | vwsegment/word_segments.py:75-83 | The accumulator of two record runs in a row is the concatenation of their accumulators. |
| Segmenter.SegmentDoc | vwsegment/word_segments.py:75-84 | Every word of a document is non-empty and free of whitespace. |
| Segmenter.SegmentDocRoundTrip | vwsegment/word_segments.py:84 | A document's words joined by single spaces are its stripped accumulator with each whitespace run collapsed to one space. Splitting that text gives the same words back. |
| Segmenter.Segment | vwsegment/word_segments.py:71-85 | `_segment` returns one word list per document, in document order. The list at each position is `SegmentDoc` of the document at that position. |
| Segmenter.SegmentOne | vwsegment/word_segments.py:75-84 | One pass of the outer loop yields exactly the document's words: its accumulator, stripped and split. |
| Segmenter.Reconstruct | vwsegment/word_segments.py:75-83 | After the inner loop, `tokens` is the fold `Accumulate` of the document's records, taken in order. |
| Segmenter.AddPiece | vwsegment/word_segments.py:77-83 | The loop body grows `tokens` by exactly the piece of the current record, whichever of the three branches applies. |
| Segmenter.SegmentEmptyDoc | vwsegment/word_segments.py:75-84 | A document with no records has no words. |
| Segmenter.BeginTokenStartsWord | vwsegment/word_segments.py:82-84 | A record without `##` and not labelled `I` adds the words of its fragment after the existing words. |
| Segmenter.GluedPieceExtendsLastWord | vwsegment/word_segments.py:78-84 | After a visible character, a piece that is a word extends the last word. |
| Segmenter.InsideTokenJoins | vwsegment/word_segments.py:80-84 | When the accumulator ends in a visible character, an `I` record without `##` whose fragment has no whitespace adds `_` and its fragment onto the last word. |
| Segmenter.MarkerTokenMerges | vwsegment/word_segments.py:78-84 | When the accumulator ends in a visible character, a record holding `##` whose unmarked fragment is a word merges that fragment onto the last word, whatever its label. |
| Segmenter.FirstWord | vwsegment/word_segments.py:75-84 | A first `B` record whose fragment is a word makes that fragment the only word. |
| Segmenter.BeginThenInside | vwsegment/word_segments.py:75-84 | A `B` syllable followed by an `I` syllable form the one word `b_i`. |
| Segmenter.BeginThenMarker | vwsegment/word_segments.py:75-84 | A `B` syllable followed by a `##` piece form one word with no separator. |
| Segmenter.Normalize | vwsegment/word_segments.py:58-64 | With `case` true, the segments come back unchanged. Otherwise the shape is unchanged and each word is the lowercase of the word at the same position. |
| Segmenter.NormalizeIdempotent | vwsegment/word_segments.py:61-64 | Lowercasing twice is lowercasing once, when the per-character map is idempotent. |
| Segmenter.NormalizeKeepsWords | vwsegment/word_segments.py:61-64 | Case folding keeps every word a word, when the map sends no visible character to whitespace. |
| Segmenter.AsList | vwsegment/word_segments.py:54-55 | A single string becomes the one-element list holding it. A list is kept as it is. |
| Segmenter.SingleIsOneElementBatch | vwsegment/word_segments.py:54-56 | A single string is processed exactly like a one-element list. |
| Segmenter.WordSegments.Get | vwsegment/word_segments.py:67-68 | Integer indexing succeeds exactly for indexes in `[-n, n)`. A negative index counts from the end. |
| Segmenter.Create | vwsegment/word_segments.py:51-64 | Construction has two outcomes. For a language other than `"vi"`, it fails and changes no cached attribute. Otherwise it loads the cache as `Loaded` says, keeps the texts as a list, takes one word list per pipeline document, and case-folds the result unless `case` is set. |
| ModelCache.NeedsReloadTokenizer | vwsegment/word_segments.py:127-132 | Reload when no tokenizer is set, no `truncate` is recorded, or `truncate` differs. `max_length` is received and ignored. After a load, `ReloadDecisionsAfterLoad` proves it holds exactly when `truncate` changes, and `StaleTokenizerMaxLength` shows the ignored `max_length`. |
| ModelCache.NeedsReloadModel | vwsegment/word_segments.py:136-143 | Reload when no model is set, or `torch_dtype` or `max_length` is unset or differs. `ReloadDecisionsAfterLoad` proves that after a load it holds exactly when one of them changes. |
| ModelCache.NeedsReloadPipe | vwsegment/word_segments.py:147-152 | Reload when no pipeline is set, or `device` is unset or differs. `ReloadDecisionsAfterLoad` proves that after a load it holds exactly when `device` changes. |
| ModelCache.TokenizerStep | vwsegment/word_segments.py:98-105 | The tokenizer block: when the decision is taken, a new tokenizer from the next serial number, with `truncate` and `max_length` recorded; otherwise no change. `RebuildTokenizer` is proved to perform it. |
| ModelCache.ModelStep | vwsegment/word_segments.py:107-114 | The model block: when the decision is taken, a new model, with `torch_dtype` and `max_length` recorded; otherwise no change. `RebuildModel` is proved to perform it. |
| ModelCache.PipeStep | vwsegment/word_segments.py:116-123 | The pipeline block: when any decision is taken, a new pipeline over the current model and tokenizer, with `device` recorded; otherwise no change. `RebuildPipe` is proved to perform it. |
| ModelCache.Loaded | vwsegment/word_segments.py:94-123 | After a load, all three artifacts exist and the recorded configuration is the requested one. A coherent cache stays coherent: each artifact matches the recorded values its reload decision compares (for the tokenizer, `truncate` only), and the pipeline was built from the current tokenizer and model. |
| ModelCache.FirstLoadBuildsEverything | vwsegment/word_segments.py:94-123 | The first construction calls each loader once, with the requested parameters. |
| ModelCache.LoadedRecordsRequest | vwsegment/word_segments.py:98-123 | After a load, `truncate`, `max_length`, `torch_dtype` and `device` hold the request. The pipeline runs the current tokenizer and model on the requested device. |
| ModelCache.ReloadDecisionsAfterLoad | vwsegment/word_segments.py:127-152 | After a load for one configuration, the decisions for another are as follows. The tokenizer reloads exactly when `truncate` differs. The model reloads exactly when `torch_dtype` or `max_length` differs. The pipeline reloads exactly when `device` differs. |
| ModelCache.SelectiveRebuild | vwsegment/word_segments.py:94-152 | A second load has three exact rebuild rules. The tokenizer is rebuilt exactly when `truncate` changes. The model is rebuilt exactly when `torch_dtype` or `max_length` changes. The pipeline is rebuilt exactly when anything changes. A kept artifact is unchanged, and its loader's count does not move. |
| ModelCache.RepeatLoadRebuildsNothing | vwsegment/word_segments.py:94-152 | A second construction with the same configuration changes no attribute and calls no loader. |
| ModelCache.DeviceChangeRebuildsOnlyPipe | vwsegment/word_segments.py:116-123 | Changing only `device` rebuilds only the pipeline. |
| ModelCache.MaxLengthChangeKeepsTokenizer | vwsegment/word_segments.py:127-144 | Changing only `max_length` rebuilds the model and the pipeline but not the tokenizer. |
| ModelCache.TruncateChangeKeepsModel | vwsegment/word_segments.py:127-144 | Changing only `truncate` rebuilds the tokenizer and the pipeline but not the model. |
| ModelCache.DtypeChangeKeepsTokenizer | vwsegment/word_segments.py:127-144 | Changing only `torch_dtype` rebuilds the model and the pipeline but not the tokenizer. |
| ModelCache.StaleTokenizerMaxLength | vwsegment/word_segments.py:127-132 | After a change of `max_length` alone, the pipeline keeps the tokenizer built for the old length, while the recorded `max_length` and the model use the new one. |
| ModelCache.Cache.constructor | vwsegment/word_segments.py:10 | Before the first construction, no class attribute is set and no loader has been called. |
| ModelCache.Cache.LoadModel | vwsegment/word_segments.py:89-123 | `_load_model` has two outcomes. For a language other than `"vi"`, it fails before reading or changing any attribute. Otherwise the attributes afterwards are `Loaded` of the attributes before, and coherence is kept. |
| ModelCache.Cache.RebuildTokenizer | vwsegment/word_segments.py:98-105 | A new tokenizer replaces the old one. `truncate` and `max_length` record its parameters. |
| ModelCache.Cache.RebuildModel | vwsegment/word_segments.py:107-114 | A new model replaces the old one. `torch_dtype` and `max_length` record its parameters. |
| ModelCache.Cache.RebuildPipe | vwsegment/word_segments.py:116-123 | A new pipeline is built over the current tokenizer and model. `device` records its device. |

## Left out

- The `transformers` calls (`AutoTokenizer.from_pretrained`, `AutoModelForTokenClassification.from_pretrained`, `pipeline`): these are foreign code. The artifacts are abstract values, and inference is the parameter `infer`. Failures inside these calls, which propagate unchanged, are not modelled. Such a failure can leave the class incoherent, which the model does not capture. Suppose `truncate` and `max_length` both change, the tokenizer block runs (`vwsegment/word_segments.py:99-105`), and then the model loader raises at :108. The class then keeps the new `truncate` and `max_length` with the old model and the old pipeline. A retry with the same configuration decides no reload at all (:94-96), so the pipeline keeps the old tokenizer and model. `Coherent` holds only for the states that successful loads reach.
- `batch_size`: it is only passed on to the pipeline, so it does not appear.
- The meaning of `torch_dtype` and `device`: both are opaque comparable values.
- Text.Lower: Python's `str.lower()` is abstracted as a map on single characters. A character whose lowercase is longer, such as U+0130, is not modelled. Nor is the context-dependent final-sigma rule: `'ΟΔΟΣ'.lower()` ends in `ς`, which no per-character map gives.
- Segmenter.Create: no relation between the number of texts and the number of documents the pipeline returns is stated, since that is the pipeline's own contract.
- Segmenter.WordSegments.Get: only integer indexes are modelled. Slices, which `__getitem__` also accepts, are not.
- Aliasing of the result lists: a `WordSegments` result is modelled as an immutable value. In the source, `__getitem__` returns the stored list itself (`vwsegment/word_segments.py:68`), so a caller can mutate `_norm_segmented`. With `case=True` that list is also `_segmented` (:59), and the model does not capture this aliasing.
- Running Python with assertions disabled (`-O`) removes the language check in `_load_model`. The model always performs the check.
- Thread safety of the class-level cache: the code defines no locking, and the model is sequential.
