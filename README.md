# Password generator: a Dafny model of `PasswordComponent`

This project models the logic of the browser password generator's
`PasswordComponent` (`src/app/password/password.component.ts`) and proves properties of it:

- **Pool builder** (`CharacterPool`): `generatePassword` appends up to four fixed alphabets to
  `validChars`: uppercase, lowercase, digits, symbols, always in that order.
- **Random password builder** (`Generator`): `generateRandomPassword` runs its loop `length`
  times. Each pass appends `validChars[Math.floor(Math.random() * validChars.length)]`. The
  random source is an *index oracle*: the caller supplies the sequence of indices the loop
  picks, one per pass, each in `[0, |validChars|)` (`ValidIndices`).
- **Strength scorer** (`Strength`): `calculateStrength` counts five independent criteria.
  They are length at least 8, an `A-Z`, an `a-z`, a digit, and a character of
  `!@#$%^&*(),.?":{}|<>`. The count is mapped to WEAK, FAIR, GOOD, STRONG or VERY STRONG for
  0 to 4. The `switch` has no case for 5 and no default, so the source returns `undefined`.
  A count of 5 is `None`; the model has exactly the five labels of the `switch`.
- **Component state** (`Component.PasswordComponent`): a class with the two fields that
  `generatePassword` overwrites, `generatedPassword` and `passwordStrength`. The form value is
  passed in as a plain `Options` record that the method only reads.

`Charsets` holds the alphabets and character classes. `Basics` holds `Option`, a 0/1
indicator and `Max0` (the number of passes of `for (i = 0; i < n; i++)`).

`Ab3$defg` meets all five criteria, since `$` is in the scorer's special set, so the code
returns `undefined` for it (`Strength.ScoreOfAllCriteria`).

Two modelling choices:

- An **empty pool** with a positive length cannot meet `ValidIndices`: no index is below 0.
  So the generator *requires* a non-empty pool whenever it has to draw at all. With
  `length <= 0` the loop does not run, and any pool, the empty one included, gives `""`.
- **`passwordStrength`** holds `Option<Label>`. `Label.Text()` gives the exact strings the
  source returns. The source's initial value `''` and the `undefined` score for five criteria
  are both `None`, meaning "no label shown".

## Model

| member | source | states |
|---|---|---|
| `Charsets.UppercaseIsRange` | src/app/password/password.component.ts:30 | the uppercase alphabet has 26 characters and holds exactly `A`..`Z` |
| `Charsets.LowercaseIsRange` | src/app/password/password.component.ts:31 | the lowercase alphabet has 26 characters and holds exactly `a`..`z` |
| `Charsets.DigitsIsRange` | src/app/password/password.component.ts:32 | the digit alphabet has 10 characters and holds exactly `0`..`9` |
| `Charsets.SymbolsAreNotAlphanumeric` | src/app/password/password.component.ts:33 | the symbol alphabet has 24 characters, none of them a letter or a digit |
| `Charsets.SpecialIsNotAlphanumeric` | src/app/password/password.component.ts:68 | no character of the scorer's special set is a letter or a digit |
| `Charsets.SymbolSetsDiffer` | src/app/password/password.component.ts:68 | a generator symbol (line 33) is special for the scorer exactly when it is not one of `_ + [ ] ;`; every special character other than `"` is a generator symbol; `"` is special but not a generator symbol |
| `CharacterPool.PoolLength` | src/app/password/password.component.ts:35-39 | the pool's length is 26·upper + 26·lower + 10·numbers + 24·symbols |
| `CharacterPool.PoolMembers` | src/app/password/password.component.ts:35-39 | a character is in the pool if and only if it belongs to an enabled class; the pool holds no other characters |
| `CharacterPool.PoolOrdered` | src/app/password/password.component.ts:35-39 | the pool's characters appear in class order: every uppercase letter before every lowercase letter, then digits, then symbols |
| `CharacterPool.BuildPool` | src/app/password/password.component.ts:35-39 | the sequence of `+=` on `validChars` yields exactly `Pool(o)` |
| `CharacterPool.LowercaseAndDigitsPool` | src/app/password/password.component.ts:30-39 | enabling only lowercase and digits yields exactly `abcdefghijklmnopqrstuvwxyz0123456789` |
| `CharacterPool.EmptyPoolIffNoClass` | src/app/password/password.component.ts:35-39 | the pool is empty if and only if all four toggles are off |
| `CharacterPool.QuoteNeverInPool` | src/app/password/password.component.ts:30-39 | `"` is never in the pool, whatever the options |
| `Generator.Draw` | src/app/password/password.component.ts:47-52 | the password built by appending one pool character per index has one character per index |
| `Generator.DrawAt` | src/app/password/password.component.ts:48-50 | character `k` of the drawn password is `validChars[randomIndex[k]]` |
| `Generator.DrawFromPool` | src/app/password/password.component.ts:48-50 | every character of a drawn password belongs to the pool |
| `Generator.GenerateRandomPassword` | src/app/password/password.component.ts:46-53 | the loop returns a password of exactly `max(length, 0)` characters; it is empty when `length <= 0`; character `k` is the pool character at the `k`-th supplied index, so every character is in the pool |
| `Strength.CriteriaCount` | src/app/password/password.component.ts:63-74 | the count of criteria is at most 5; it is 5 exactly when all five hold and 0 exactly when none holds |
| `Strength.LabelFor` | src/app/password/password.component.ts:76-89 | the `switch` gives a label exactly for counts 0..4, and that label's rank is the count; every other count, 5 included, gives no label |
| `Strength.Score` | src/app/password/password.component.ts:62-90 | a text has no label exactly when it meets all five criteria; otherwise its label's rank is its criteria count |
| `Strength.CalculateStrength` | src/app/password/password.component.ts:62-90 | incrementing `strength` once per criterion and switching on it yields `Score(password)`: no label exactly when all criteria hold, otherwise the label ranked at the count |
| `Strength.LabelsAreDistinct` | src/app/password/password.component.ts:76-86 | each label is returned for its own rank; the label texts are non-empty and pairwise distinct |
| `Strength.ScoreOfEmpty` | src/app/password/password.component.ts:62-90 | the empty text meets no criterion and scores WEAK |
| `Strength.ScoreOfSingleUpper` | src/app/password/password.component.ts:62-90 | `A` meets exactly one criterion and scores FAIR |
| `Strength.ScoreOfAllCriteria` | src/app/password/password.component.ts:62-90 | `Ab3$defg` meets all five criteria and gets no label |
| `Strength.ScoreOfUnderscores` | src/app/password/password.component.ts:64-74 | eight underscores meet only the length criterion and score FAIR |
| `Component.PasswordComponent.constructor` | src/app/password/password.component.ts:13-14 | a new component shows an empty password and no strength label |
| `Component.PasswordComponent.GeneratePassword` | src/app/password/password.component.ts:27-43 | `generatedPassword` becomes the password drawn from `Pool(options)` at the supplied indices; it has `max(length, 0)` characters, all of enabled classes; `passwordStrength` becomes `Score(generatedPassword)` |
| `Component.GeneratedScoreFollowsOptions` | src/app/password/password.component.ts:41-42 | a generated password meets a character criterion only if the options enable that class (special needs symbols); so its count is at most the length criterion plus the number of enabled classes |
| `Component.CharacterOfGenerated` | src/app/password/password.component.ts:41 | each character of a generated password is uppercase, lowercase, a digit or special only if the options enable uppercase, lowercase, numbers or symbols respectively |
| `Component.GeneratorReachesNoLabel` | src/app/password/password.component.ts:41-42 | with all classes on and length 8, the indices `0,26,52,62,26,26,26,26` draw `Aa0!aaaa`, which gets no label |
| `Component.SymbolsOnlyCanMissSpecial` | src/app/password/password.component.ts:41-42 | with symbols only and length 8, drawing index 10 eight times gives `________`; it misses the special criterion and scores FAIR |
| `Component.NonPositiveLengthIsWeak` | src/app/password/password.component.ts:41-42 | with `length <= 0` the generated password is empty, whatever the pool, and it scores WEAK |

## Left out

- Component.PasswordComponent.constructor: the source's initial `passwordStrength` of `''` and the `undefined` score for five criteria are both modelled as `None`, so the model cannot tell "never generated" from "scored five" by this field alone.
- `Math.random()` and its floating-point arithmetic (line 49): the caller supplies the indices. The model does not claim they are uniform or independent.
- An empty pool with a positive length: the JavaScript code would append the text `undefined` on each pass. This host-language quirk is excluded by `ValidIndices`, and the model requires a non-empty pool whenever it draws.
- Non-integer or non-numeric `length` values from the form: `length` is an `int`.
- `copyPassword` (lines 56-59): it is browser I/O (`navigator.clipboard.writeText` and `alert`).
- The Angular decorator, the `FormBuilder`/`FormGroup` wiring and the form's default values (lines 1-24): this is framework plumbing. The options arrive as a plain `Options` record.
- `src/app/app.component.ts`: an empty shell with no logic. The HTML and CSS templates are not part of this model.
- JavaScript strings are sequences of UTF-16 code units, while Dafny's `char` is a Unicode scalar value. Every generated character is ASCII, so the two agree on generated passwords. For arbitrary text with characters outside the Basic Multilingual Plane, the length criterion counts differently.
- Scoring twice gives the same label because `Score` is a function of the text alone. No separate lemma states this.
