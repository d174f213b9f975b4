# eduktok in Dafny

eduktok is an iOS language-learning app. This project models the core of its Swift code.

Users work through units of lessons in one of several languages. A unit is a numbered group of lessons. There are three lesson kinds:
- Listening: pick the picture that matches the spoken word.
- ListeningFour: the same, with four cards.
- Speaking: say the word shown on a card. A Levenshtein similarity test at 85 % accepts the answer.

Progress is kept per language, unit and lesson in the user's document in Firestore. Authors create units and lessons through forms that upload images and audio. A second part of the app is memory cards: user-made "templates" that are rescheduled on spaced-repetition intervals and scored by tag.

The model is split into modules that follow the app's structure:

| module | what it covers |
|---|---|
| `Wrappers` | `Option`, `GetOr`, `OrElse` (Swift's `??`) |
| `Json` | Firestore's `[String: Any]` as a `Value` tree, and the `as? T` casts |
| `Collections` | Swift's `compactMap`, `filter`, `sorted`, and `Array(Set(_))` |
| `Lessons` | the skill enum, the cards, the three lesson kinds and the unit, with their dictionary initialisers, decoders, encoders and `copyWith` |
| `Users` | the user and template models, their `languageProgress` casts, initialisers and `copyWith` |
| `Utils` | storage paths, the SHA-256 hex string, the sign-in nonce |
| `Similarity` | trimming and normalising, the Levenshtein matrix, the 0.85 test |
| `Recognizer` | the streaming speech recogniser and its view model |
| `Speaking` | the speaking view model, the speaking screen and its cards |
| `Listening` | the listening view model |
| `Progress` | the lesson screen's progress reads and writes |
| `LanguageGrid` | the language screen, its per-unit counts, grid rows and premium lock |
| `Authoring` | the unit and lesson creation forms |
| `MemoryCards` | the add-template form, tag splitting, `onDone`, `onRestored`, the feed filter |
| `Account` | sign-up mode and submit, the username editor |

Foreign calls are parameters of the operations that use them. These are:
- Firestore reads and writes, and their thrown errors;
- storage uploads (`upload: string -> Url`);
- `URL(string:)` (`parsesAsUrl`, `isValidUrl`);
- `UUID()`;
- `Date()`;
- text operations such as lowercasing and the whitespace and punctuation sets (`TextOps`);
- `localizedCaseInsensitiveContains`;
- `SecRandomCopyBytes`;
- the SHA-256 digest;
- whether a speech recogniser exists and whether the audio engine starts.

A write to Firestore is recorded in a `written` / `created` / `...Writes` sequence of the class that makes it. A delayed callback (`asyncAfter`) becomes a pending event that a separate method fires, in any order.

## Model

| member | source | states |
|---|---|---|
| Wrappers.OrElse | eduktok/models/UserModel.swift:58-71 | `a ?? b`: the first value when present, otherwise the second |
| Json.GetString | eduktok/models/UserModel.swift:58-71 | `d[key] as? String` succeeds exactly when the key holds a string, and then returns that string |
| Json.GetInt | eduktok/models/UnitModel.swift:37-60 | `as? Int` succeeds exactly when the key holds an integer, and then returns it |
| Json.GetTime | eduktok/models/TemplateModel.swift:23-50 | `as? Timestamp` succeeds exactly when the key holds a timestamp, and then returns it |
| Json.GetDictArray | eduktok/models/UnitModel.swift:37-60 | `as? [[String: Any]]` succeeds exactly when every element is an object; the result keeps length and order |
| Json.GetStringArray | eduktok/models/TemplateModel.swift:23-50 | `as? [String]` succeeds exactly when every element is a string; the result keeps length and order |
| Json.GetIntArray | eduktok/models/TemplateModel.swift:33 | `as? [Int]` succeeds exactly when every element is an integer; the result keeps length and order |
| Json.StringArrayRoundTrip | eduktok/models/TemplateModel.swift:23-50 | a string array stored under a key reads back unchanged |
| Collections.CompactMap | eduktok/models/UnitModel.swift:37-60 | the kept results are no more than the inputs, and each comes from an input mapped to it |
| Collections.CompactMapKeeps | eduktok/models/UnitModel.swift:37-60 | every input with a non-nil result has that result kept |
| Collections.CompactMapSkips | eduktok/models/UnitModel.swift:37-60 | an element mapped to nil is dropped and its neighbours close up |
| Collections.CompactMapAgreesWithMapAll | eduktok/models/GListeningModel.swift:57-64 | where no element fails, the skipping decoder agrees with the all-or-nothing array decoder |
| Collections.MapAll | eduktok/models/GListeningModel.swift:57-64 | `decode([ListeningModel].self, ...)`: decoding a whole card array succeeds exactly when every element decodes, and then maps element by element |
| Collections.SortBy | eduktok/views/languages/LanguageView.swift:44 | `sorted(by:)` on a key: ascending by key and a permutation of the input |
| Collections.Filter | eduktok/views/memory_cards/FeedView.swift:15-26 | `filter`: every kept element passes and comes from the input, every passing element is kept, and the result is a sub-multiset of the input |
| Collections.FilterCounts | eduktok/views/memory_cards/FeedView.swift:15-26 | every occurrence of a passing element is kept and no occurrence of a failing one |
| Collections.FilterSnoc | eduktok/views/memory_cards/FeedView.swift:15-26 | the kept elements keep their input order: a further element is appended exactly when it passes |
| Collections.Dedup | eduktok/view_models/AddTemplateViewModel.swift:89-103 | `Array(Set(s))`: the same set of elements, each once |
| Lessons.SkillFromRaw | eduktok/models/LessonModel.swift:10-16 | `GLanguageSkill(rawValue:)` accepts exactly "Listening", "ListeningFour" and "Speaking", and returns the case with that raw value |
| Lessons.SkillRawRoundTrip | eduktok/models/LessonModel.swift:10-16 | every skill round-trips through its raw value, and the raw values are distinct |
| Lessons.RemovedSkillsRejected | eduktok/models/LessonModel.swift:14-15 | the commented-out "Writing" and "Interpreting" no longer decode |
| Lessons.GetUrl | eduktok/models/ListeningModel.swift:31-43 | `URL(string: d[key] as? String)` is present exactly when the key holds a string that parses as a URL |
| Lessons.ListeningCardFromDict | eduktok/models/ListeningModel.swift:31-43 | the card decodes exactly when id and text are strings and both URLs parse; it carries those values and no blobs |
| Lessons.EncodeListeningCard | eduktok/models/ListeningModel.swift:53-59 | the encoder writes exactly the keys id, text, audioUrl and imageUrl |
| Lessons.ListeningCardRoundTrip | eduktok/models/ListeningModel.swift:45-59 | a card with both URLs set decodes from its encoding to itself without blobs |
| Lessons.ListeningCardNilUrlNotDecodable | eduktok/models/ListeningModel.swift:45-59 | a card whose URL is nil is encoded in a form its own decoder rejects |
| Lessons.NewSpeakingCard | eduktok/models/GSpeakingModel.swift:79-87 | a new speaking card starts not completed and without blobs, carrying the given fields |
| Lessons.SpeakingCardFromDict | eduktok/models/GSpeakingModel.swift:97-109 | the card decodes exactly when id and text are strings and both URLs parse; it starts not completed |
| Lessons.EncodeSpeakingCard | eduktok/models/GSpeakingModel.swift:111-117 | the encoder writes exactly id, text, audioUrl and imageUrl, dropping `completed` |
| Lessons.SpeakingCardRoundTrip | eduktok/models/GSpeakingModel.swift:89-117 | a storable card decodes from its encoding to itself with `completed` reset and no blobs |
| Lessons.LessonHashAgreesWithEquality | eduktok/models/GListeningModel.swift:12-17 | `==` compares ids alone, and holds exactly when the hash keys agree |
| Lessons.LessonHeader | eduktok/models/GListeningModel.swift:32-51 | the common fields decode exactly when id is a string, lessonNumber an integer and type a known skill |
| Lessons.GListeningFromDict | eduktok/models/GListeningModel.swift:32-51 | decodes exactly when the header and both card arrays are present; malformed cards are skipped in order |
| Lessons.GListeningFourFromDict | eduktok/models/GListeningFourModel.swift:30-44 | decodes exactly when the header and foreModels are present; malformed cards are skipped |
| Lessons.GSpeakingFromDict | eduktok/models/GSpeakingModel.swift:30-43 | decodes exactly when the header and models are present; every card starts not completed |
| Lessons.SkippedCardsAreTheMalformedOnes | eduktok/models/GListeningModel.swift:32-51 | a card that does not decode is skipped, and the cards around it keep their order |
| Lessons.CreateLesson | eduktok/models/UnitModel.swift:155-171 | a lesson is built exactly when the header is valid and the arrays its kind needs are present; it keeps the header's id, number and kind, and its cards are the arrays' entries that decode, in order (`compactMap`) |
| Lessons.ListeningCardsValue | eduktok/models/GListeningModel.swift:66-73 | the encoded card array has one object per card |
| Lessons.SpeakingCardsValue | eduktok/models/GSpeakingModel.swift:57-63 | the encoded card array has one object per card |
| Lessons.EncodeLesson | eduktok/models/GListeningModel.swift:66-73 | each kind writes exactly its own keys |
| Lessons.DecodeLesson | eduktok/models/GListeningModel.swift:57-64 | a decoded lesson carries the header read from the keys |
| Lessons.ListeningCardsRoundTrip | eduktok/models/GListeningModel.swift:57-73 | an encoded array of storable cards decodes to those cards, in order |
| Lessons.SpeakingCardsRoundTrip | eduktok/models/GSpeakingModel.swift:49-63 | an encoded array of storable speaking cards decodes to them with `completed` reset |
| Lessons.LessonRoundTrip | eduktok/models/GListeningModel.swift:57-73 | every storable lesson of every kind decodes from its encoding to itself, without blobs (likewise `GListeningFourModel.swift` 50-64 and `GSpeakingModel.swift` 49-63) |
| Lessons.DictInitAgreesWithDecoder | eduktok/models/GListeningModel.swift:32-64 | for a listening lesson on which the Codable decoder succeeds, the dictionary initialiser gives the same lesson |
| Lessons.UnitFromDocument | eduktok/models/UnitModel.swift:37-60 | a unit document decodes exactly when all six fields have their types; the id is the document's, and lessons are those that decode |
| Lessons.UnknownLessonTypeDropped | eduktok/models/UnitModel.swift:85 | a lesson of unknown type is skipped and the others keep their order |
| Lessons.CopyWith | eduktok/models/UnitModel.swift:134-153 | the copy always has an id, and stays `==` to the original exactly when no different id is given |
| Lessons.CopyWithNothingIsIdentity | eduktok/models/UnitModel.swift:134-153 | `copyWith()` with no arguments returns the same unit |
| Lessons.CopyWithLessonsOnly | eduktok/models/UnitModel.swift:134-153 | `copyWith(lessons:)` changes only the lessons |
| Users.AsProgress | eduktok/models/UserModel.swift:41-56 | the `[String: [String: [String: Bool]]]` cast succeeds exactly on a three-level map of booleans, keeping the languages |
| Users.ProgressRoundTrip | eduktok/models/UserModel.swift:41-56 | stored progress casts back to itself |
| Users.LessonMapRoundTrip | eduktok/models/UserModel.swift:41-56 | a stored lesson map casts back to itself |
| Users.UnitMapRoundTrip | eduktok/models/UserModel.swift:41-56 | a stored unit map casts back to itself |
| Users.OneBadFlagSpoilsTheCast | eduktok/models/UserModel.swift:41-56 | one non-boolean flag makes the whole progress cast fail |
| Users.NewUser | eduktok/models/UserModel.swift:26-39 | the initialiser stores the given fields, with the defaulted ones absent |
| Users.OmittedLearningLanguageIsNil | eduktok/models/UserModel.swift:22-39 | a user made without a learning language has none |
| Users.UserFromJson | eduktok/models/UserModel.swift:58-71 | decodes exactly when uid, username and email are strings and role and hasLifetimeAccess, if present, have their types; defaults are role "user" and no lifetime access |
| Users.UserFromDocument | eduktok/models/UserModel.swift:41-56 | a missing document gives nil; otherwise the JSON initialiser's answer |
| Users.MinimalProfileDefaults | eduktok/models/UserModel.swift:58-71 | a document with only uid, username and email gives the user with every default |
| Users.IllTypedFieldsTolerance | eduktok/models/UserModel.swift:58-71 | an ill-typed optional field reads as nil, but an ill-typed role rejects the document |
| Users.CopyWith | eduktok/models/UserModel.swift:72-94 | a given optional field replaces the old one and nil keeps it, so an optional field can never be cleared |
| Users.UserCopyWithNothingIsIdentity | eduktok/models/UserModel.swift:72-94 | `copyWith()` with no arguments returns the same user |
| Users.UserCopyWithProgressOnly | eduktok/models/UserModel.swift:72-94 | `copyWith(languageProgress:)` changes only the progress |
| Users.OptionalUrl | eduktok/models/TemplateModel.swift:37-38 | an optional URL field is present exactly when it holds a parsable string |
| Users.TemplateFromDocument | eduktok/models/TemplateModel.swift:23-50 | decodes exactly when title, both dates, createdBy and tags have their types; missing intervals take the default |
| Users.MissingIntervalsDefault | eduktok/models/TemplateModel.swift:33 | a template document without intervals gets [2, 3, 7, 15, 30, 60, 120, 240, 480, 960] |
| Users.TemplateCopyWith | eduktok/models/TemplateModel.swift:76-109 | an optional field that is set stays set: `copyWith` cannot clear description, url or imageUrl |
| Users.TemplateCopyWithNothingIsIdentity | eduktok/models/TemplateModel.swift:76-109 | `copyWith()` with no arguments returns the same template |
| Users.TemplateCopyWithSchedule | eduktok/models/TemplateModel.swift:76-109 | `copyWith(nextDate:intervals:)` changes only the schedule |
| Utils.NatToString | eduktok/utils/Utils.swift:14-16 | string interpolation of a number writes decimal digits without a leading zero |
| Utils.IntToString | eduktok/utils/Utils.swift:14-16 | an interpolated integer starts with '-' exactly when it is negative |
| Utils.IntToStringRoundTrip | eduktok/utils/Utils.swift:14-16 | an interpolated integer parses back to itself |
| Utils.IntToStringInjective | eduktok/utils/Utils.swift:14-16 | distinct integers are written differently |
| Utils.ImageFilePath | eduktok/utils/Utils.swift:14-16 | a card picture's path starts with "images/unit_" and ends with the card id followed by ".jpg" |
| Utils.AudioPath | eduktok/utils/Utils.swift:18-20 | a card recording's path starts with "audios/unit_" and ends with the card id followed by ".mp3" |
| Utils.ImageAndAudioPathsDiffer | eduktok/utils/Utils.swift:14-20 | no image path is ever an audio path |
| Utils.ImagePathsSeparateCards | eduktok/utils/Utils.swift:14-16 | two cards of one lesson with different ids get different image paths |
| Utils.UnitImagePath | eduktok/utils/Utils.swift:22-27 | a unit cover's path starts with "images/unit_" and ends with the lower-cased language followed by ".jpg" |
| Utils.UnitImagePathsSeparateUnits | eduktok/utils/Utils.swift:22-27 | two units of one language with different numbers get different cover paths |
| Utils.HexByte | eduktok/utils/Utils.swift:34-36 | `%02x` writes every byte in two characters |
| Utils.Hex | eduktok/utils/Utils.swift:34-36 | the joined hex string has two characters per byte |
| Utils.Sha256Hex | eduktok/utils/Utils.swift:31-39 | a 32-byte digest becomes 64 lower-case hex digits |
| Utils.HexDigitsOnly | eduktok/utils/Utils.swift:34-36 | the hex string uses only "0123456789abcdef" |
| Utils.UnhexPairHexByte | eduktok/utils/Utils.swift:35 | the two digits printed for a byte read back as that byte |
| Utils.UnhexByte | eduktok/utils/Utils.swift:34-36 | a byte's two digits in front of any text read back as the byte in front of the text's reading |
| Utils.UnhexHex | eduktok/utils/Utils.swift:34-36 | the hex encoding is reversible, so distinct digests give distinct strings |
| Utils.Accepted | eduktok/utils/Utils.swift:57-66 | each random byte yields at most one nonce character |
| Utils.AcceptedFromCharset | eduktok/utils/Utils.swift:42-43 | every nonce character comes from the 64-character alphabet |
| Utils.AcceptedPrefix | eduktok/utils/Utils.swift:47-67 | the characters accepted from a prefix of the stream begin those accepted from the whole stream |
| Utils.AppendAccepted | eduktok/utils/Utils.swift:57-66 | one batch of sixteen bytes extends the nonce with its accepted characters until `length` are held |
| Utils.RandomNonceString | eduktok/utils/Utils.swift:40-70 | the nonce is the first `length` accepted characters of the random stream, drawn in blocks of 16 bytes; with too few, there is no nonce |
| Utils.NoneOnlyWhenShort | eduktok/utils/Utils.swift:47-67 | a stream whose first whole blocks already hold enough accepted bytes always yields a nonce |
| Utils.NonceIsPrefix | eduktok/utils/Utils.swift:47-69 | once the drawn batches yield `length` characters, they are the first `length` of the whole stream |
| Utils.NonceStreamEnds | eduktok/utils/Utils.swift:47-55 | a stream that ends inside a batch with characters still missing holds too few whole batches |
| Similarity.TrimStart | eduktok/views/languages/GSpeakingView.swift:305-307 | the result is the suffix left after dropping the leading characters of the set |
| Similarity.TrimEnd | eduktok/views/languages/GSpeakingView.swift:305-307 | the result is the prefix left after dropping the trailing characters of the set |
| Similarity.Trim | eduktok/views/languages/GSpeakingView.swift:305-307 | `trimmingCharacters(in:)`: a non-empty result neither starts nor ends with a character of the set |
| Similarity.TrimIsSlice | eduktok/views/languages/GSpeakingView.swift:305-307 | trimming returns exactly the middle slice between the trimmed ends |
| Similarity.TrimIdempotent | eduktok/views/languages/GSpeakingView.swift:305-307 | trimming twice is trimming once |
| Similarity.Normalize | eduktok/views/languages/GSpeakingView.swift:311-312 | lowercase, trim whitespace, then trim punctuation: no punctuation is left at either end |
| Similarity.EditDistanceZeroIffEqual | eduktok/views/languages/GSpeakingView.swift:329-352 | the distance is zero exactly when the strings are equal |
| Similarity.EditDistanceSymmetric | eduktok/views/languages/GSpeakingView.swift:329-352 | the distance does not depend on argument order |
| Similarity.EditDistanceBounds | eduktok/views/languages/GSpeakingView.swift:329-352 | the distance lies between the length difference and the longer length |
| Similarity.CellStep | eduktok/views/languages/GSpeakingView.swift:342-349 | each inner cell is the diagonal on a match, else one more than the least neighbour |
| Similarity.LevenshteinDistance | eduktok/views/languages/GSpeakingView.swift:329-352 | the matrix loops compute the edit distance of the two strings |
| Similarity.FillRow | eduktok/views/languages/GSpeakingView.swift:343-349 | one pass of the inner loop fills row i with the distances of the (i, j) prefixes and leaves the other rows alone |
| Similarity.AreStringsSimilar | eduktok/views/languages/GSpeakingView.swift:354-359 | the corrected matcher of the first Findings row: similar exactly when 1 - distance / maxLength >= 0.85, and never when a string is empty (as written, an empty string traps in the loops before any division) |
| Similarity.SimilarSymmetric | eduktok/views/languages/GSpeakingView.swift:327-360 | similarity does not depend on argument order |
| Similarity.SimilarReflexive | eduktok/views/languages/GSpeakingView.swift:327-360 | a non-empty answer is similar to itself |
| Similarity.EmptyNeverSimilar | eduktok/views/languages/GSpeakingView.swift:354-359 | nothing is similar to the empty string |
| Similarity.ThresholdInclusive | eduktok/views/languages/GSpeakingView.swift:357-359 | at length 20, three edits pass and four do not: the bound 0.85 is inclusive |
| Similarity.AreStringsSimilarAsWritten | eduktok/views/languages/GSpeakingView.swift:334-350 | as written, the closed ranges `1...m` and `1...n` trap exactly when a string is empty |
| Similarity.AsWrittenTrapsOnEmptyTranscript | eduktok/views/languages/GSpeakingView.swift:342-343 | an empty transcript traps the as-written test |
| Similarity.CorrectedAgreesWithAsWritten | eduktok/views/languages/GSpeakingView.swift:327-360 | wherever the as-written code does not trap, it gives the corrected answer |
| Similarity.ScenarioSameWord | eduktok/views/languages/GSpeakingView.swift:327-360 | "cat" is accepted for "cat" |
| Similarity.ScenarioOneTypo | eduktok/views/languages/GSpeakingView.swift:327-360 | "helo there" is accepted for "hello there" |
| Similarity.ScenarioOneTypoDistance | eduktok/views/languages/GSpeakingView.swift:329-352 | "helo there" is one edit away from "hello there" |
| Similarity.ScenarioTruncatedAnswer | eduktok/views/languages/GSpeakingView.swift:327-360 | "good" is rejected for "good morning" |
| Recognizer.SpeechEngine.StartRecognition | eduktok/view_models/SpeechRecognizer.swift:126-173 | any running task is cancelled first, a new request is made, a task exists only with a recogniser, and the result says whether the audio engine started |
| Recognizer.SpeechEngine.StopRecognition | eduktok/view_models/SpeechRecognizer.swift:176-184 | the audio stops, the request ends if there is one, the task is cancelled and cleared |
| Recognizer.RecognizerViewModel.constructor | eduktok/view_models/SpeechRecognizer.swift:22-44 | the view model starts not listening with an empty transcription and an idle engine |
| Recognizer.RecognizerViewModel.ToggleRecognition | eduktok/view_models/SpeechRecognizer.swift:53-68 | listening stops the engine and keeps the transcription; otherwise it clears the transcription and listens exactly when the engine starts |
| Recognizer.RecognizerViewModel.OnResult | eduktok/view_models/SpeechRecognizer.swift:27-31 | a partial result replaces the transcription |
| Recognizer.RecognizerViewModel.OnFinalResult | eduktok/view_models/SpeechRecognizer.swift:33-37 | the final result replaces the transcription |
| Recognizer.RecognizerViewModel.OnError | eduktok/view_models/SpeechRecognizer.swift:38-44 | an error stops listening and keeps the transcription; the engine is stopped twice, by the task callback (line 161) and by the handler, so its record shows both stops and the task cancelled once |
| Recognizer.RecognizerViewModel.StopRecognition | eduktok/view_models/SpeechRecognizer.swift:48-50 | the engine stops and has no task |
| Speaking.FirstIndexOf | eduktok/view_models/GSpeakingViewModel.swift:14-25 | `firstIndex(where: id ==)`: the first card with the id, or none when none has it |
| Speaking.MarkCompletedFrame | eduktok/view_models/GSpeakingViewModel.swift:14-25 | only the first card with the id becomes completed; an unknown id changes nothing |
| Speaking.MarkCompletedIdempotent | eduktok/view_models/GSpeakingViewModel.swift:14-25 | marking an already completed card, or marking twice, changes nothing |
| Speaking.FirstIndexStable | eduktok/view_models/GSpeakingViewModel.swift:14-25 | marking keeps the card at the same index |
| Speaking.CompletedStaysCompleted | eduktok/view_models/GSpeakingViewModel.swift:14-25 | a completed card stays completed |
| Speaking.SpeakingViewModel.MarkCardCompleted | eduktok/view_models/GSpeakingViewModel.swift:14-25 | the cards become the marked cards; `onFinished` is scheduled exactly when a known id leaves every card completed |
| Speaking.SpeakingViewModel.RunFinished | eduktok/view_models/GSpeakingViewModel.swift:20-22 | a scheduled `onFinished` runs once and changes no card |
| Speaking.LastCardFinishes | eduktok/view_models/GSpeakingViewModel.swift:14-25 | completing the one remaining card completes the lesson |
| Speaking.IncompleteCardBlocksFinish | eduktok/view_models/GSpeakingViewModel.swift:14-25 | a different card still incomplete keeps the lesson unfinished |
| Speaking.SpeakingScreen.constructor | eduktok/views/languages/GSpeakingView.swift:59-62 | on appearing, the view model holds the lesson's cards and the first card is active |
| Speaking.SpeakingCardView.constructor | eduktok/views/languages/GSpeakingView.swift:107-118 | a card view starts with no banners and its own idle recogniser |
| Speaking.SpeakingCardView.ValidateSpeech | eduktok/views/languages/GSpeakingView.swift:309-325 | with the corrected matcher of the first Findings row: an accepted transcript shows success, completes the card, schedules `onFinished` when that completes every card, and activates the next; a rejected one shows retry and changes nothing else |
| Speaking.SpeakingCardView.Respond | eduktok/views/languages/GSpeakingView.swift:315-324 | the match branch (success banner, card completed, `onFinished` scheduled when every card is then completed, next card active) and the retry branch (retry banner only) |
| Speaking.SpeakingCardView.ToggleRecognition | eduktok/views/languages/GSpeakingView.swift:377-390 | the card validates exactly when it ends up not listening, on the transcript heard before, with the engine stopped or restarted; a validated match shows success, completes the card, may schedule `onFinished` and moves the index on; a validated mismatch shows retry only; starting to listen clears the transcript and changes no card, banner or index |
| Speaking.SpeakingCardView.OnActiveIndexChanged | eduktok/views/languages/GSpeakingView.swift:227-231 | the card that becomes active toggles its recogniser with every effect of its toggle (engine, transcript, banners, cards, `onFinished`, index); any other card leaves all of this state unchanged |
| Speaking.MatchTranscript | eduktok/views/languages/GSpeakingView.swift:310-313 | with the corrected matcher: the answer is accepted exactly when the normalised text and transcript are similar; an accepted transcript is never empty |
| Speaking.SilenceIsRejected | eduktok/views/languages/GSpeakingView.swift:310-313 | under the corrected matcher, a transcript that normalises to nothing is rejected (as written it traps) |
| Speaking.ValidationAsWritten | eduktok/views/languages/GSpeakingView.swift:310-313 | the comparison as written traps exactly when the card text or the transcript normalises to nothing |
| Speaking.ValidationAsWrittenAgrees | eduktok/views/languages/GSpeakingView.swift:310-313 | where the written comparison does not trap, it gives the verdict the corrected card view acts on |
| Speaking.ExactAnswerAccepted | eduktok/views/languages/GSpeakingView.swift:310-313 | an answer equal to the text after normalising is accepted |
| Listening.FinishedCallsSchedule | eduktok/view_models/GListeningViewModel.swift:99-112 | `onFinished` runs only when the index passes the end, once at the end, and once more for every advance beyond it |
| Listening.ListeningViewModel.constructor | eduktok/view_models/GListeningViewModel.swift:14-20 | the view model starts empty, at index 0, with nothing tapped or pending |
| Listening.ListeningViewModel.PreloadTitleAudio | eduktok/view_models/GListeningViewModel.swift:52-71 | the title card's audio is fetched exactly when it has a URL; nothing else changes |
| Listening.ListeningViewModel.Appear | eduktok/views/languages/GListeningView.swift:225-231 | the view sets the cards, takes the first fore card as title and preloads its audio; the index is not reset |
| Listening.ListeningViewModel.CheckMatch | eduktok/view_models/GListeningViewModel.swift:73-89 | the tapped card is the match exactly when its text equals the title's text; its badge shows that; a match schedules the advance, a miss schedules clearing the tap |
| Listening.ListeningViewModel.AdvanceToNextTitle | eduktok/view_models/GListeningViewModel.swift:99-112 | the index moves on; in range, the next title is shown, its audio is fetched when it has a URL, and the tap is cleared; past the end, the transition starts and `onFinished` runs |
| Listening.ListeningViewModel.Fire | eduktok/view_models/GListeningViewModel.swift:73-89 | firing one pending callback removes it and gives the callback's whole new state: clearing resets the tap and changes nothing else; advancing moves the index with the title, audio fetch, tap and transition of `AdvanceToNextTitle`; the invariant is kept |
| Progress.LanguageKey | eduktok/views/languages/LessonView.swift:143 | `learningLanguage ?? selectedLanguage` picks the user's learning language first |
| Progress.LanguageSlice | eduktok/views/languages/LessonView.swift:143 | the progress of the chosen language, exactly when the user has it |
| Progress.UnitProgress | eduktok/views/languages/LessonView.swift:143-144 | the unit's lesson map is present exactly when both the language and the unit are recorded |
| Progress.FirstMissing | eduktok/views/languages/LessonView.swift:146-152 | the index of the first lesson with no entry; every earlier lesson has one |
| Progress.FirstMissingNoneIffAllDone | eduktok/views/languages/LessonView.swift:146-152 | no lesson is missing exactly when every lesson has an entry |
| Progress.IsUnitComplete | eduktok/views/languages/LessonView.swift:190-201 | the unit is complete exactly when its progress exists and every lesson has an entry |
| Progress.FindFirstIncompleteLessonIndex | eduktok/views/languages/LessonView.swift:142-153 | the loop returns the first lesson with no entry, or nil without progress or when all have one |
| Progress.FalseFlagCountsAsDone | eduktok/views/languages/LessonView.swift:148 | an entry counts as done even when its flag is false, since only nil is checked |
| Progress.MarkLessonCompleted | eduktok/views/languages/LessonView.swift:204-230 | the fetched user gets this lesson's flag set to true; every other language, unit and lesson is kept, and nothing but the progress changes |
| Progress.MarkedLessonIsDone | eduktok/views/languages/LessonView.swift:204-230 | after the write the lesson counts as done, and lessons done before stay done |
| Progress.LessonIds | eduktok/views/languages/LessonView.swift:287-289 | exactly the ids of the unit's lessons |
| Progress.ResetUnitProgress | eduktok/views/languages/LessonView.swift:282-295 | a user is written exactly when the language has progress; the unit's map loses exactly the unit's lessons and nothing else changes |
| Progress.ResetClearsEveryLesson | eduktok/views/languages/LessonView.swift:282-295 | after a reset no lesson of the unit is done and the first lesson is the first incomplete one |
| Progress.LanguageCode | eduktok/views/languages/LessonView.swift:52-65 | German, French and Spanish map to de-DE, fr-FR and es-ES, and every other language to en-US |
| Progress.LessonSession.constructor | eduktok/views/languages/LessonView.swift:22-31 | the lesson screen opens on the first incomplete lesson, or on lesson 0 |
| Progress.LessonSession.SelectLesson | eduktok/views/languages/LessonView.swift:106-108 | tapping a lesson button makes it current and changes nothing else |
| Progress.LessonSession.NextView | eduktok/views/languages/LessonView.swift:176-188 | the index moves on unless at the last lesson; the lesson that was current is written as completed into the fetched user; completion is read from the screen's stale user |
| Progress.LessonSession.ShowCompletion | eduktok/views/languages/LessonView.swift:72-79 | the completion view shows exactly when the unit is complete, and then resets the index to 0 |
| Progress.CompletedUnitStartsAtFirstLesson | eduktok/views/languages/LessonView.swift:27-30 | a completed unit has no incomplete lesson, so the screen opens at lesson 0 |
| LanguageGrid.CountTrue | eduktok/views/languages/LanguageView.swift:66 | the number of true flags is at most the number of entries |
| LanguageGrid.CalculateUnitProgress | eduktok/views/languages/LanguageView.swift:61-70 | one count per recorded unit of the language, counting true flags; empty when the language has no progress |
| LanguageGrid.CountAfterMark | eduktok/views/languages/LanguageView.swift:61-70 | marking a lesson done raises the count by one unless it was already true |
| LanguageGrid.FalseFlagsCompleteButCountNothing | eduktok/views/languages/LanguageView.swift:66 | false flags make a unit complete on the lesson screen but count zero on the grid |
| LanguageGrid.FalseFlagExample | eduktok/views/languages/LanguageView.swift:66 | one lesson flagged false: complete and counted 0 |
| LanguageGrid.TruncDiv | eduktok/views/languages/LanguageView.swift:106 | `Int(x)` truncates toward zero |
| LanguageGrid.ColumnCount | eduktok/views/languages/LanguageView.swift:103-106 | at least two columns, and otherwise as many 160-point columns as fit in the width less 32 |
| LanguageGrid.Rows | eduktok/views/languages/LanguageView.swift:102-124 | the rows, read in order, are the units; every row is full except the last, which is non-empty |
| LanguageGrid.RowsOf | eduktok/views/languages/LanguageView.swift:108-123 | for any positive column count, the rows read in order are the units, no row is empty or longer than the count, and all but the last are full |
| LanguageGrid.ConcatSnoc | eduktok/views/languages/LanguageView.swift:108-121 | appending a row appends its units |
| LanguageGrid.FreeUnitsAreTheFirstHalf | eduktok/views/languages/LanguageView.swift:135 | without premium, unit n of N is open exactly when n <= N / 2; unit 1 is open when there are two units, and the last is never open |
| LanguageGrid.SortedUnits | eduktok/views/languages/LanguageView.swift:44 | units ordered by ascending unit number, as a permutation |
| LanguageGrid.LanguageScreen.constructor | eduktok/views/languages/LanguageView.swift:14 | the screen starts on English |
| LanguageGrid.LanguageScreen.Appear | eduktok/views/languages/LanguageView.swift:51-56 | on appearing the user's learning language is selected, else English |
| LanguageGrid.LanguageScreen.ChooseLanguage | eduktok/views/languages/LanguageView.swift:29-36 | choosing selects the language, stores it in the shared user, writes that user, and progress is then read under it |
| Authoring.LanguageRank | eduktok/views/languages/LessonCreationView.swift:48-50 | a rank exists exactly for English, German, French and Spanish |
| Authoring.UnrankedUnitsNeverPrecede | eduktok/views/languages/LessonCreationView.swift:49-51 | a unit of an unlisted language precedes nothing and follows nothing |
| Authoring.RankedOrderIsLexicographic | eduktok/views/languages/LessonCreationView.swift:47-60 | for listed languages, the order is by language rank, then unit number |
| Authoring.UnitPrecedesIsStrictOrder | eduktok/views/languages/LessonCreationView.swift:47-60 | the comparator is irreflexive, asymmetric and transitive |
| Authoring.RankedIncomparabilityIsTransitive | eduktok/views/languages/LessonCreationView.swift:47-60 | over listed languages, ties are exactly equal language and number, and are transitive |
| Authoring.UnrankedLanguageBreaksWeakOrder | eduktok/views/languages/LessonCreationView.swift:49-51 | an Italian unit ties with both an English and a German unit that are ordered, so Swift's `sorted` gets no strict weak ordering |
| Authoring.InitialUnit | eduktok/views/languages/LessonCreationView.swift:104-106 | the first English unit numbered 1 becomes selected; with none, the selection stays |
| Authoring.MaxOf | eduktok/views/languages/LessonCreationView.swift:744 | `max()` is an element and at least every element |
| Authoring.NextLessonNumber | eduktok/views/languages/LessonCreationView.swift:723-749 | nil without a document or lessons array; 0 for an empty array; otherwise one more than the highest readable number, or nil when none is readable |
| Authoring.CompactMapMembership | eduktok/views/languages/LessonCreationView.swift:741-743 | the numbers read are exactly those of the lessons that carry one |
| Authoring.NextLessonNumberIsFresh | eduktok/views/languages/LessonCreationView.swift:723-749 | the new number is not the number of any stored lesson |
| Authoring.UnnumberedLessonsGiveNoNumber | eduktok/views/languages/LessonCreationView.swift:744-747 | a non-empty array with no readable number gives nil |
| Authoring.ListeningDraftCard | eduktok/views/languages/LessonCreationView.swift:394 | a new listening card has the form's id, text and blobs, and no URLs |
| Authoring.SpeakingDraftCard | eduktok/views/languages/LessonCreationView.swift:565-595 | a new speaking card has the form's id, text and blobs, no URLs, not completed |
| Authoring.Submitted | eduktok/views/languages/LessonCreationView.swift:377-395 | a card is produced exactly when text is non-empty and image and audio are present |
| Authoring.CardForm.constructor | eduktok/views/languages/LessonCreationView.swift:351-360 | the card form starts empty with no error or banner |
| Authoring.CardForm.Submit | eduktok/views/languages/LessonCreationView.swift:377-403 | errors in the order text, image, audio, each leaving the fields; success adds the card, clears the fields and shows the banner |
| Authoring.UploadKeepsCards | eduktok/views/languages/LessonCreationView.swift:313-328 | uploading keeps every card's id, text and blobs and sets both URLs to the uploads of its own paths |
| Authoring.UploadListeningCards | eduktok/views/languages/LessonCreationView.swift:313-328 | the loop sets each card's URLs in place |
| Authoring.UploadSpeakingCards | eduktok/views/languages/LessonCreationView.swift:487-537 | the loop sets each speaking card's URLs in place |
| Authoring.NewLesson | eduktok/views/languages/LessonCreationView.swift:310 | the new lesson has the new id, the next number and the form's kind |
| Authoring.BuildLesson | eduktok/views/languages/LessonCreationView.swift:310-331 | the lesson is built by the kind's constructor and the asset loops |
| Authoring.CreatedLessonIsAppended | eduktok/views/languages/LessonCreationView.swift:292-349 | a lesson is created only with enough cards, a unit and a number; it is appended to the refetched unit, which is otherwise unchanged |
| Authoring.TooFewCardsWhateverTheBackend | eduktok/views/languages/LessonCreationView.swift:293-297 | below the minimum, the minimum error is reported whatever the backend would answer |
| Authoring.MinimumsByKind | eduktok/views/languages/LessonCreationView.swift:293 | Listening needs two back and two fore cards; ListeningFour and Speaking need four |
| Authoring.LessonForm.constructor | eduktok/views/languages/LessonCreationView.swift:114-120 | a lesson form starts with no cards, no writes and no alert |
| Authoring.LessonForm.AddModel | eduktok/views/languages/LessonCreationView.swift:351-403 | a submitted card is appended to the list its card form fills, and nothing else changes |
| Authoring.LessonForm.CreateLesson | eduktok/views/languages/LessonCreationView.swift:292-349 | the minimum error, a silent return without a unit, "Failed to create lesson: " plus the thrown error, or the updated unit written with the kind's lists cleared and the banner shown |
| Authoring.LessonForm.Fail | eduktok/views/languages/LessonCreationView.swift:345-347 | the catch block sets the error and the alert only |
| Authoring.LessonForm.Publish | eduktok/views/languages/LessonCreationView.swift:337-341 | the unit is written, the kind's lists are cleared and the banner shows |
| Authoring.LanguageFromRaw | eduktok/views/languages/UnitCreationView.swift:13-20 | a language decodes only from its raw value |
| Authoring.LanguageRawValues | eduktok/views/languages/UnitCreationView.swift:13-20 | raw values are distinct and round-trip; the id is the raw value; every course language is ranked |
| Authoring.HighestUnitNumber | eduktok/views/languages/UnitCreationView.swift:133-153 | 0 with no document; the top document's unitNumber, nil when it is not an integer |
| Authoring.QueryTop | eduktok/views/languages/UnitCreationView.swift:137-143 | the query returns a document of the language with the highest unit number, or none exactly when the language has none |
| Authoring.HighestIsLargestOfLanguage | eduktok/views/languages/UnitCreationView.swift:133-153 | the highest number is at least every unit number of the language and is one of them, or 0 with no units |
| Authoring.UnitCreationForm.constructor | eduktok/views/languages/UnitCreationView.swift:23-31 | the unit form starts empty in English |
| Authoring.UnitCreationForm.CreateUnit | eduktok/views/languages/UnitCreationView.swift:86-130 | without a title or image nothing happens; a nil number returns silently; a throw shows its error; otherwise "Unit N+1" is created with the uploaded image path |
| Authoring.UnitNameCarriesNumber | eduktok/views/languages/UnitCreationView.swift:114 | the unit name is "Unit " followed by the number, which parses back |
| MemoryCards.SplitTags | eduktok/view_models/AddTemplateViewModel.swift:52-53 | splitting on ",", " ", "-" and "_" with empty pieces dropped gives non-empty, separator-free tags |
| MemoryCards.SplitTagsKeepsText | eduktok/view_models/AddTemplateViewModel.swift:52-53 | the tags, joined, are the text with the separators removed |
| MemoryCards.SplitJoinedTags | eduktok/view_models/AddTemplateViewModel.swift:52-53 | comma-joined valid tags split back into the same tags |
| MemoryCards.MergeTags | eduktok/view_models/AddTemplateViewModel.swift:89-103 | the user's new tags are the union of the template's and theirs, each once |
| MemoryCards.NewTemplate | eduktok/view_models/AddTemplateViewModel.swift:76-87 | a new template is due yesterday, created now, with intervals [1, 3, 7, ...]; its URL is nil exactly for an empty field |
| MemoryCards.AddTemplateViewModel.constructor | eduktok/view_models/AddTemplateViewModel.swift:22-28 | the form starts empty with no error and no writes |
| MemoryCards.AddTemplateViewModel.ValidateAndAddTemplate | eduktok/view_models/AddTemplateViewModel.swift:39-106 | the empty-field and URL errors; a silent false on a failed JPEG; otherwise the add, update and user writes, each stopping with "Error saving template: " on a throw; true exactly when all three succeed |
| MemoryCards.Rescheduled | eduktok/views/memory_cards/FeedCardView.swift:86-95 | rescheduling needs two intervals; it drops the first and is due after the next one |
| MemoryCards.RescheduleShortens | eduktok/views/memory_cards/FeedCardView.swift:86-95 | each review shortens the schedule by one and moves the due date forward; the last interval ends the schedule |
| MemoryCards.Bump | eduktok/views/memory_cards/FeedCardView.swift:99-100 | one tag's score is raised by one, from 0 when absent, and the others are kept |
| MemoryCards.OnDone | eduktok/views/memory_cards/FeedCardView.swift:83-108 | as written: the rescheduled template is written; then each tag's write is the original scores with that one tag raised, until a write throws |
| MemoryCards.BumpAllCounts | eduktok/views/memory_cards/FeedCardView.swift:98-104 | raising the tags in turn adds each tag's number of occurrences to its score |
| MemoryCards.OnDoneCarryingScores | eduktok/views/memory_cards/FeedCardView.swift:98-104 | corrected: each write carries every tag raised so far, and the last carries all the card's tags |
| MemoryCards.AsWrittenLosesEarlierTags | eduktok/views/memory_cards/FeedCardView.swift:98-104 | as written, the final write leaves the first tag's score unchanged, while the intended one raises it |
| MemoryCards.CarryingDiffersFromAsWritten | eduktok/views/memory_cards/FeedCardView.swift:98-104 | for tags "a" and "b" from no scores, the intended end state is a=1, b=1; as written it is b=1 only |
| MemoryCards.RestoreIsIdempotent | eduktok/views/memory_cards/DoneCardView.swift:89-102 | restoring a template twice is restoring once, and a restored template can be reviewed again |
| MemoryCards.Restored | eduktok/views/memory_cards/DoneCardView.swift:89-102 | a restored template is due yesterday with the default intervals, and is otherwise unchanged |
| MemoryCards.FilteredTemplates | eduktok/views/memory_cards/FeedView.swift:15-26 | newest first; an empty search keeps every template; otherwise exactly the templates with a tag that contains the search |
| Account.Toggled | eduktok/views/auth_views/SignUpView.swift:18-23 | toggling always gives the other mode |
| Account.ToggleIsInvolution | eduktok/views/auth_views/SignUpView.swift:18-23 | toggling twice is no change |
| Account.SignUpScreen.constructor | eduktok/views/auth_views/SignUpView.swift:29 | the screen opens in sign-up mode |
| Account.SignUpScreen.Submit | eduktok/views/auth_views/SignUpView.swift:54-66 | sign-in calls sign-in; sign-up calls sign-up exactly when the passwords agree, else reports "Passwords don't match" |
| Account.SignUpScreen.ToggleMode | eduktok/views/auth_views/SignUpView.swift:112-114 | the link switches the mode and nothing else |
| Account.ValidUsernameIsLength | eduktok/views/settings/SettingsView.swift:165-167 | a name is valid exactly when it has at least five characters, so the empty check is redundant |
| Account.UsernameSection.constructor | eduktok/views/settings/SettingsView.swift:98-102 | the section appears with the editor closed and an empty edit buffer |
| Account.UsernameSection.BeginEditing | eduktok/views/settings/SettingsView.swift:111-118 | the pencil presents a fresh editor with no alert, bound to the buffer as it stands |
| Account.UsernameSection.Type | eduktok/views/settings/SettingsView.swift:134 | typing replaces the buffer and nothing else |
| Account.UsernameSection.Cancel | eduktok/views/settings/SettingsView.swift:141-144 | cancel resets the buffer to the shown name and closes the editor |
| Account.UsernameSection.Save | eduktok/views/settings/SettingsView.swift:146-154 | a valid buffer is written into the view model's user when there is one; an invalid one raises the alert; the editor stays open |
| Account.UsernameSection.DismissAlert | eduktok/views/settings/SettingsView.swift:158-159 | "OK" dismisses the alert and changes nothing else |
| Account.FirstSaveWithoutTyping | eduktok/views/settings/SettingsView.swift:101-153 | on the first opening the field is empty, so saving without typing raises "Invalid Username" and writes nothing |
| Account.SaveAfterCancel | eduktok/views/settings/SettingsView.swift:141-153 | after a cancel the editor shows the current name, and saving it writes the user with that name, or raises the alert when it is too short |
| Account.SavedUserChangesOnlyTheName | eduktok/view_models/SettingsViewModel.swift:36-46 | the written user is the old user with only the name changed |

## Left out

- I/O of every kind is a parameter or a recorded write. This covers Firestore, Firebase Storage, audio playback, the audio session, microphone permission, timers, `Task.sleep` and `asyncAfter` delays. The state they produce is modelled; their timing is not.
- Floating point: the similarity ratio is compared in exact rational arithmetic. The grid's `CGFloat` width is an integer, truncated as `Int(_)` truncates.
- Swift's `String.count` counts grapheme clusters; the model counts `char`s. Lowercasing and the character sets are parameters (`TextOps`).
- `UserModel` is a class shared by reference. The model treats a user as a value and passes the updated value along. `LanguageGrid.LanguageScreen.ChooseLanguage` keeps the shared user as a field.
- `tags` and `tagsScore` of the user are not in the `UserModel.swift` listing. They reach `MemoryCards.OnDone` and `MemoryCards.AddTemplateViewModel` as parameters.
- `ImageDropper`, `AudioDropper` and JPEG conversion: the picked image is present or absent, and conversion failure is a flag.
- `Authoring.LessonForm.CreateLesson`: uploads of card assets never throw in the model. An upload error is one `Failed` outcome of the same kind as the other thrown errors, and is not modelled separately.
- `Authoring.QueryTop`: Firestore's cross-type ordering of `unitNumber` values is not modelled. The query orders only documents whose `unitNumber` is an integer.
- `Utils.RandomNonceString`: the random stream is finite. Where the source would draw more bytes forever, the model returns no nonce. A failed `SecRandomCopyBytes` (a `fatalError`) is not modelled.
- The Sign in with Apple request that uses the nonce and `sha256` is not part of this model. The SHA-256 digest itself is a parameter.
- Loading overlays (`isLoading`) and the success banner's 1.5-second timer: the banners are booleans set by the operations.
- `UnitCardView.getTitle`, `deleteLesson` and `deleteTemplate` are not modelled; they only forward to Firestore.
- The `GWriting` and `GInterpreting` lesson kinds are commented out of `GLanguageSkill`. Their switch cases in `UnitModel` therefore cannot be reached, and the model has no such kinds.
- The sort behind the lesson creator's unit picker: only its comparator (`Authoring.UnitPrecedes`) and its failure to be a strict weak ordering are modelled. Swift's sort result for such a comparator is unspecified.
- `ListeningLessonForm`, `ListeningFourLessonForm` and `SpeakingLessonForm` are one class, `Authoring.LessonForm`, told apart by its `kind`.
- `MemoryCards.Rescheduled`: `Calendar.date(byAdding:)` is day arithmetic on an integer day count. Its force-unwrap never fails in the model.
- `MemoryCards.MergeTags`: the order of `Array(Set(_))` is unspecified in Swift. The model keeps first occurrences in order and states only the set and that there are no duplicates.
- The Firestore listeners of the feed, done and settings view models are not modelled; their results are the inputs of the operations that use them.
- Speaking.SpeakingCardView.ValidateSpeech, Speaking.SpeakingCardView.ToggleRecognition, Speaking.MatchTranscript and Speaking.SilenceIsRejected use the corrected matcher `Similarity.AreStringsSimilar` of the first Findings row. As written, a card text or transcript that normalises to "" (silence, or only punctuation) traps and ends the app; the model shows the retry banner instead. The trap itself is stated by `Speaking.ValidationAsWritten`.
- `Speaking.SpeakingCardView.ToggleRecognition`: the microphone sound and the one-second sleep before listening are left out.
- Firestore's `NSNumber` bridging, by which `as? Int` accepts a stored boolean and `as? Bool` a stored 0 or 1, is not modelled. `Json.Value` keeps booleans and integers apart, so `Json.GetInt` and `Users.AsProgress` reject such values where the app would accept them.
- Authoring.UnitCreationForm.CreateUnit: a Firestore write that throws after the image upload succeeded is the same single thrown outcome as an upload failure. The uploaded image left behind in Storage is not modelled.
- Progress.LessonSession.NextView: the Firestore write happens in a `Task` after the index moves on. The model applies both in one step, so it does not capture a second tap before the write finishes.

## Findings

| source | as written | input that shows it | evidently intended | confidence | as-written member | corrected member |
|---|---|---|---|---|---|---|
| eduktok/views/languages/GSpeakingView.swift:342-343 | `for i in 1...m` and `for j in 1...n` build closed ranges, which trap when `m` or `n` is 0 | a transcript that normalises to "" (silence, or only punctuation), compared with any text | the inner cells filled over `1..<m+1`, and an empty answer rejected | not executed | Similarity.AsWrittenTrapsOnEmptyTranscript | Similarity.AreStringsSimilar |
| eduktok/views/memory_cards/FeedCardView.swift:98-104 | each pass starts again from `user.tagsScore`, so every user write undoes the previous one and only the last tag is counted | a template with tags ["a", "b"] and no scores: the final write is {b: 1} | each write carries the scores raised so far, ending at {a: 1, b: 1} | not executed | MemoryCards.CarryingDiffersFromAsWritten | MemoryCards.OnDoneCarryingScores |
