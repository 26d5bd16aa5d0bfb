# ffui-python core, modelled in Dafny

ffui-python is a terminal front end for ffmpeg. The user picks settings
(video and audio encoder, quality, speed preset, metadata handling, what to
do when the output exists) from a fixed catalog. The program then turns the
chosen values into an ffmpeg argument list. This project models three
pieces of that program and proves what they promise:

- **The argument builder** (`build_ffmpeg_args`): from an input path, an
  output path and a configuration (setting key to chosen string), it
  builds ffmpeg's argument list in a fixed order. `BuildFfmpegArgs` grows
  the list step by step as the source does. It is proved equal to the
  function `Args`, and the positions, presence and count of every flag are
  proved about `Args`. A missing key is not a precondition. It is the
  source's `KeyError`, modelled as `Err(MissingKey(k))` naming the first
  key the source subscripts, in its order: `video_encoder`, `crf`,
  `preset`, `audio_encoder`, `on_conflict`. `preserve_metadata` is read
  with `.get`, so its absence is not an error.
- **Encoder discovery** (`get_available_encoders`): the text that
  `ffmpeg -encoders` prints is an input (`None` when ffmpeg could not be
  run). Two imperative methods mirror the source's two loops:
  `FindListStart` finds the separator line and `CollectEncoders` files
  each name. The final `sorted(list(set(...)))` is `SortedSet`: the
  strictly increasing list of the distinct names, which `SortedIsUnique`
  shows is the only such list. Python's `splitlines`, `strip`, `split`,
  `isspace`, substring `in` and string `<` are modelled in module `PyStr`.
- **The settings catalog and its visibility filter** (`config.py`): the
  two encoder tables, the seven catalog entries as the program starts,
  and `get_visible_configs`. That function reads the chosen option of the
  first "Video Encoder" entry, with Python's negative indexing. It then
  drops Preset and CRF for `copy` and `librav1e`, and only Preset for
  `libvpx-vp9` and `libsvtav1`. A missing "Video Encoder" entry
  (`StopIteration`) and an out-of-range choice (`IndexError`) are
  modelled as `Err`.

Module `Agreement` connects the filter and the builder. For every encoder
the screen can offer (`copy` or a supported video encoder), Preset is shown
exactly when the builder passes `-preset`, and CRF exactly when it passes
`-crf`.

Files: `wrappers.dfy` (Option, Result), `py_str.dfy`, `py_sorted.dfy`,
`config.dfy`, `ffmpeg_utils.dfy`, `agreement.dfy`.

## Model

| member | source | states |
|---|---|---|
| FfmpegUtils.BuildFfmpegArgs | ffmpeg_utils.py:57-85 | The imperative builder that extends `args` step by step returns exactly `Args(inPath, outPath, cfg)`, including which KeyError ends it early. |
| FfmpegUtils.Args | ffmpeg_utils.py:57-85 | The argument list or the missing key it stops at. An error names a key absent from the configuration. On success `video_encoder`, `audio_encoder`, `on_conflict` and the quality keys the encoder reads are present. |
| FfmpegUtils.ArgsErrors | ffmpeg_utils.py:62-79 | The builder fails if and only if some key it subscripts is absent. Then it names the first absent key in reading order. |
| FfmpegUtils.KeysRead | ffmpeg_utils.py:62-79 | The keys the builder subscripts, in the order it reads them: `video_encoder` first, `audio_encoder` and `on_conflict` last, `crf` iff the encoder is one of the four quality-controlled ones and `preset` iff it is libx264 or libx265. This order fixes which KeyError is raised. |
| FfmpegUtils.FirstMissing | ffmpeg_utils.py:62-79 | None iff every key is present. Otherwise the position of a missing key with every earlier key present. |
| FfmpegUtils.FirstMissingAt | ffmpeg_utils.py:62-79 | A missing key with all earlier keys present is the one reported. |
| FfmpegUtils.ArgsFailsAt | ffmpeg_utils.py:62-79 | The builder fails on the first absent key in reading order, whatever is absent after it. |
| FfmpegUtils.ArgsMissing | ffmpeg_utils.py:62-79 | Each of the five subscripted keys, absent while the keys read before it are present, is the error: `crf` and `preset` only for the encoders that read them, and `on_conflict` only after `audio_encoder`. |
| FfmpegUtils.ArgsSucceeds | ffmpeg_utils.py:59-85 | With every subscripted key present, the list is input, video codec, quality flags, audio flags, metadata flags, conflict flag, output. |
| FfmpegUtils.ArgsOk | ffmpeg_utils.py:59-84 | Conversely, any success has every subscripted key present and is exactly those seven parts in order. |
| FfmpegUtils.ArgsEnds | ffmpeg_utils.py:59-84 | A success has at least 7 arguments. It starts `-i in -c:v encoder` and ends with the output path. |
| FfmpegUtils.ArgsQualityFlags | ffmpeg_utils.py:63-66 | Position 4 holds `-crf crf -preset preset` for libx264/libx265 and `-crf crf` for libvpx-vp9/libsvtav1. Otherwise nothing is there and the audio flag comes next. |
| FfmpegUtils.ArgsAudioFlags | ffmpeg_utils.py:69-72 | Exactly one audio choice at its position: `-an` alone for "None", otherwise `-c:a encoder`. The next argument is a metadata or conflict flag. |
| FfmpegUtils.ArgsMetadataFlags | ffmpeg_utils.py:75-76 | `-map_metadata 0` follows the audio flags when preserve_metadata is "Yes". Otherwise only the conflict flag and the output follow. |
| FfmpegUtils.ArgsConflictFlag | ffmpeg_utils.py:79-82 | The second-to-last argument is `-y` iff on_conflict is "Overwrite", and `-n` iff it is not ("Skip", "Rename" or anything else). |
| FfmpegUtils.ConflictFlag | ffmpeg_utils.py:79-82 | Always `-y` or `-n`, and `-y` exactly for "Overwrite". |
| FfmpegUtils.ArgsLength | ffmpeg_utils.py:59-84 | Length is 4 + (4, 2 or 0) + (1 or 2) + (2 or 0) + 2. |
| FfmpegUtils.QualityFlags | ffmpeg_utils.py:63-66 | Takes 4, 2 or 0 arguments according to the encoder family. |
| FfmpegUtils.AudioFlags | ffmpeg_utils.py:69-72 | Takes 1 argument for "None", 2 otherwise. |
| FfmpegUtils.MetadataFlags | ffmpeg_utils.py:75-76 | Takes 2 arguments when metadata is preserved, else 0. |
| FfmpegUtils.ArgsFlagSegments | ffmpeg_utils.py:59-84 | When neither path nor any subscripted value is a flag, each flag other than `-i`/`-c:v` is present iff the part of the builder that emits it does. |
| FfmpegUtils.ArgsQualityFlagPresence | ffmpeg_utils.py:63-66 | `-crf` is present iff the encoder is one of the four quality-controlled ones, and `-preset` iff it is libx264 or libx265. So `copy` gets neither. |
| FfmpegUtils.ArgsAudioFlagPresence | ffmpeg_utils.py:69-72 | `-an` is present iff audio is "None", and `-c:a` iff it is not: never both, never neither. |
| FfmpegUtils.ArgsOutputFlagPresence | ffmpeg_utils.py:75-82 | `-map_metadata` is present iff metadata is preserved. Exactly one of `-y` and `-n` is present, as on_conflict says. |
| FfmpegUtils.ArgsExample | ffmpeg_utils.py:57-85 | The libx264 example configuration gives exactly `-i in.mp4 -c:v libx264 -crf 30 -preset fast -c:a copy -map_metadata 0 -y out.mp4`. |
| FfmpegUtils.ArgsMissingCrf | ffmpeg_utils.py:63-64 | libx264 with neither crf nor preset fails on "crf". |
| FfmpegUtils.ArgsCopyRename | ffmpeg_utils.py:62-82 | `copy` needs no crf or preset, "None" audio gives `-an`, and "Rename" gives `-n`. |
| FfmpegUtils.ListStart | ffmpeg_utils.py:18-22 | 0 iff no line holds "-------". Otherwise just past the first line that does, with no earlier line holding it. |
| FfmpegUtils.FindListStart | ffmpeg_utils.py:18-22 | The scanning loop with `break` returns `ListStart(lines)`. |
| FfmpegUtils.EncoderName | ffmpeg_utils.py:27-29 | The second word of the line, if it has one: none for a blank line, and otherwise a non-empty word with no whitespace. EncoderNameAsWritten ties it to the source's strip, skip and split. |
| FfmpegUtils.EncoderNameAsWritten | ffmpeg_utils.py:25-29 | The source's strip, skip-blank, split and take-second-word equals `EncoderName`. A blank line names nothing. A name is a non-empty word with no whitespace. |
| FfmpegUtils.ListedAt | ffmpeg_utils.py:24-29 | A table lists `e` iff some line of it names `e`. |
| FfmpegUtils.VideoFoundMembers | ffmpeg_utils.py:24-31 | The appended video names are exactly the supported video encoders some line names. |
| FfmpegUtils.AudioFoundMembers | ffmpeg_utils.py:24-33 | The appended audio names are exactly the supported audio encoders, other than video ones, that some line names. |
| FfmpegUtils.FoundStep | ffmpeg_utils.py:24-33 | One more line adds that line's contribution at the end of each list. |
| FfmpegUtils.AddEncoder | ffmpeg_utils.py:25-33 | One pass of the loop body appends exactly that line's video or audio name, or nothing. |
| FfmpegUtils.CollectEncoders | ffmpeg_utils.py:11-33 | The second loop yields `["copy"]` plus the video names and `["None", "copy"]` plus the audio names, in the order the lines give them. |
| FfmpegUtils.GetAvailableEncoders | ffmpeg_utils.py:9-39 | No output iff ffmpeg failed. Otherwise both lists are strictly increasing and duplicate-free. Video holds exactly "copy" and the supported video encoders the table names. Audio holds exactly "None", "copy" and the supported, non-video audio encoders it names. |
| PyStr.IsSpace | ffmpeg_utils.py:25-27 | No contract of its own: the character set of `str.isspace()`, which `strip` and `split()` cut at; TrimLeft, TrimRight and SplitWords state what is cut. |
| PyStr.TrimLeft | ffmpeg_utils.py:25 | `lstrip`: a suffix obtained by removing only whitespace, starting with non-whitespace. |
| PyStr.TrimRight | ffmpeg_utils.py:25 | `rstrip`: a prefix obtained by removing only whitespace, ending with non-whitespace. |
| PyStr.Strip | ffmpeg_utils.py:25 | `strip()` is empty iff the line is all whitespace, and otherwise starts and ends with non-whitespace. |
| PyStr.StripPieces | ffmpeg_utils.py:25 | `strip()` is the slice of the line left after cutting a whitespace run from each end. |
| PyStr.TrimmedPieces | ffmpeg_utils.py:25 | Cutting a whitespace prefix and then a whitespace suffix leaves a middle slice with only whitespace around it. |
| PyStr.Split | ffmpeg_utils.py:27 | No contract of its own: `split()` without a separator. SplitWords and SplitWord fix every result. |
| PyStr.WordLength | ffmpeg_utils.py:27 | The leading run of non-whitespace is maximal. |
| PyStr.SplitWords | ffmpeg_utils.py:27 | `split()` yields non-empty words without whitespace, and none iff the line is all whitespace. |
| PyStr.WordLengthOf | ffmpeg_utils.py:27 | A whitespace-free run ended by whitespace or the end of the text is exactly one word long. |
| PyStr.SplitWord | ffmpeg_utils.py:27 | `split()` gives the text between whitespace runs: after leading whitespace, a maximal whitespace-free run is the first word and the rest come from what follows; with an empty text giving no words this fixes every result. |
| PyStr.SplitAppendSpace | ffmpeg_utils.py:27 | Trailing whitespace adds no words. |
| PyStr.SplitPrependSpace | ffmpeg_utils.py:27 | Leading whitespace adds no words. |
| PyStr.SplitTrimLeft | ffmpeg_utils.py:27 | Splitting after `lstrip` gives the same words. |
| PyStr.SplitTrimRight | ffmpeg_utils.py:27 | Splitting after `rstrip` gives the same words. |
| PyStr.SplitStrip | ffmpeg_utils.py:25-27 | `line.strip().split() == line.split()`. |
| PyStr.IsLineBreak | ffmpeg_utils.py:15 | No contract of its own: the break characters of `str.splitlines()`; LineLength and SplitLines state how the text is cut at them. |
| PyStr.LineLength | ffmpeg_utils.py:15 | The run before the first line break holds no break and is maximal. |
| PyStr.SplitLines | ffmpeg_utils.py:15 | `splitlines()`: no line holds a line break, empty text has no lines, and text without a break is one line. |
| PyStr.SplitLinesJoin | ffmpeg_utils.py:15 | For text whose only breaks are "\n", joining the lines with "\n" gives the text back, less one final "\n". |
| PyStr.Contains | ffmpeg_utils.py:20 | No contract of its own: the substring test `'-------' in line`. ContainsJoin and ContainsPieces pin it down. |
| PyStr.ContainsJoin | ffmpeg_utils.py:20 | Text with the pattern written inside it contains the pattern. |
| PyStr.ContainsPieces | ffmpeg_utils.py:20 | Text that contains the pattern is some text, the pattern, and some more text. |
| PyStr.Less | ffmpeg_utils.py:39 | No contract of its own: the string `<` that `sorted` compares with, lexicographic by code point with a proper prefix first. The four lemmas below make it a strict total order. |
| PyStr.LessIrreflexive | ffmpeg_utils.py:39 | No string sorts before itself. |
| PyStr.LessTransitive | ffmpeg_utils.py:39 | String order is transitive. |
| PyStr.LessTotal | ffmpeg_utils.py:39 | Any two different strings are ordered one way. |
| PyStr.LessAsymmetric | ffmpeg_utils.py:39 | Never both `a < b` and `b < a`. |
| PySorted.StrictlySortedDistinct | ffmpeg_utils.py:39 | A strictly increasing list has no duplicates. |
| PySorted.TailElements | ffmpeg_utils.py:39 | The tail of a strictly increasing list is its elements without the head. |
| PySorted.Insert | ffmpeg_utils.py:39 | Inserting keeps the list strictly increasing, and its elements become those of `s` plus `x`. |
| PySorted.SortedSet | ffmpeg_utils.py:39 | `sorted(list(set(xs)))` is strictly increasing with exactly the elements of `xs`. |
| PySorted.SortedIsUnique | ffmpeg_utils.py:39 | Two strictly increasing lists with the same elements are equal, so any correct sort gives `SortedSet`'s list. |
| Config.CatalogWellFormed | config.py:5-59 | Every catalog entry's chosen option exists. Keys and labels are unique. No name is in both encoder tables. |
| Config.FirstNamed | config.py:66 | `next(...)`: the position of the first entry with that label, with no earlier one having it. |
| Config.FirstNamedCons | config.py:66 | The first entry with a label in `[c] + rest` is `c` or comes from `rest`, one position later. |
| Config.PyIndex | config.py:67 | Python list indexing: defined iff `-len <= i < len`, and then the element at `i` modulo the length, so a negative index counts from the end. |
| Config.SelectedVideoEncoder | config.py:66-67 | No "Video Encoder" entry is an error. Otherwise an error iff the chosen index is out of Python range, naming the index and the option count; on success the option at the chosen index modulo the count, which for a negative index is `opts[len + i]`. |
| Config.HiddenOptions | config.py:69-73 | Preset is hidden iff the encoder is copy, librav1e, libvpx-vp9 or libsvtav1. CRF is hidden iff it is copy or librav1e. Nothing else is hidden. |
| Config.KeepVisible | config.py:75 | The filter never lengthens the list. |
| Config.KeepVisibleMembers | config.py:75 | An entry survives iff it is in the input and its label is not hidden. |
| Config.KeepVisibleCount | config.py:75 | The comprehension keeps each non-hidden entry as many times as it occurs and drops every hidden one. |
| Config.GetVisibleConfigs | config.py:61-75 | It fails iff looking up the encoder fails, with the same error. On success every entry whose label that encoder does not hide occurs exactly as often as in the input, and a hidden one not at all. |
| Config.KeepVisibleIsSubsequence | config.py:75 | The result keeps the input's order and only leaves entries out. |
| Config.KeepVisibleAll | config.py:75 | With nothing to hide the list is unchanged. |
| Config.KeepVisibleTwice | config.py:75 | Filtering twice is filtering once. |
| Config.KeepVisibleFirstNamed | config.py:75 | The first entry with a non-hidden label survives as the first such entry. |
| Config.KeepVisibleAppend | config.py:75 | Filtering distributes over concatenation. |
| Config.VisibleIsSubsequence | config.py:61-75 | The visible list is a subsequence of the catalog. |
| Config.VisibleWithoutQualityControls | config.py:70-71 | For copy and librav1e, exactly the entries labelled neither Preset nor CRF remain. |
| Config.VisibleWithCrfOnly | config.py:72-73 | For libvpx-vp9 and libsvtav1, exactly the entries not labelled Preset remain. |
| Config.VisibleUnchanged | config.py:69-75 | For any other encoder the list is returned unchanged. |
| Config.VisibleKeepsOtherSettings | config.py:75 | Entries labelled other than Preset and CRF are always kept. |
| Config.VisibleIdempotent | config.py:61-75 | Applying the filter to its own result changes nothing. |
| Config.CatalogSelectsCopy | config.py:35-40 | The initial catalog selects "copy". |
| Config.CatalogWithoutQualityControls | config.py:16-59 | Hiding Preset and CRF leaves the first five catalog entries. |
| Config.CatalogInitiallyVisible | config.py:16-75 | The initial catalog shows everything but Preset and CRF. |
| Agreement.OfferedAgreement | config.py:69-73 | For copy and the supported video encoders, Preset is not hidden iff the builder gives the encoder `-preset` (ffmpeg_utils.py lines 63-64). CRF is not hidden iff the builder gives it `-crf` (lines 63-66). |
| Agreement.VisibleLabel | config.py:75 | A label present in the catalog is visible iff the selected encoder does not hide it. |
| Agreement.ScreenMatchesArguments | config.py:61-75 | With the screen's selected encoder in the configuration, Preset is visible iff the arguments hold `-preset`, and CRF iff they hold `-crf`. |

## Left out

- Running ffmpeg (`subprocess.run` in `get_available_encoders`) is left out: its captured standard output is the `Option<string>` input. `None` stands for `CalledProcessError` or `FileNotFoundError`, which the source turns into `(None, None)`.
- PyStr.SplitLinesJoin: the round trip is stated for text whose only line breaks are "\n". With "\r\n" or the other breaks `splitlines()` accepts, the terminators differ and joining with "\n" does not restore them.
- Decoding ffmpeg's bytes into text (`text=True`, with universal newlines) is left out. The text is taken as already decoded, so a decoding error, which the source does not catch, is not modelled.
- `get_video_duration` is left out. It is a call to ffprobe followed by a floating-point parse, and it is outside the modelled core.
- `action_compress.py` is not part of this model: command-line handling, JSON parsing, the existence check and running ffmpeg. Configuration values are taken to be strings; a JSON number or null in the batch argument would reach the builder unchanged and is not modelled.
- Filling the encoder entries' options with the discovered lists at run time happens in the caller and is not modelled. `Agreement` covers every encoder that filling can produce.
- Python's sorting algorithm (Timsort) is not modelled. `SortedSet` builds the result by insertion. `SortedIsUnique` shows that every correct sort gives this list.
- Python's in-place `list.append` and `extend` on the local lists are modelled as reassigning `seq` values. The lists are local to each function, so no aliasing is lost.
- Exceptions other than `KeyError`, `StopIteration` and `IndexError` are not modelled. One example is the `TypeError` raised when `focused_option` is not an integer: `focusedOption` is typed `int`.
- FfmpegUtils.ArgsFlagSegments: is stated only when neither path, nor the value of a key the builder subscripts, is itself a flag string (`NoFlagSupplied`). A value such as "-an" given as the video encoder would make the flag appear.
- FfmpegUtils.ArgsQualityFlagPresence: depends on the same `NoFlagSupplied` hypothesis.
- FfmpegUtils.ArgsAudioFlagPresence: depends on the same `NoFlagSupplied` hypothesis. ArgsAudioFlags states the positional fact without it.
- FfmpegUtils.ArgsOutputFlagPresence: depends on the same `NoFlagSupplied` hypothesis. ArgsMetadataFlags and ArgsConflictFlag state the positional facts without it.
- Agreement.ScreenMatchesArguments: depends on the same `NoFlagSupplied` hypothesis, and covers only encoders the screen can offer. For an encoder outside the tables (say "mpeg4"), Preset and CRF are shown but not passed.
- A concrete run of the encoder parser on sample ffmpeg output is not included. Evaluating `split()` on literal strings is beyond what the verifier does cheaply. The parser's properties are proved for all inputs instead.
