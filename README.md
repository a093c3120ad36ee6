# Tab-list action settings of YuzuBrowser, in Dafny

YuzuBrowser's `TabListSingleAction` is a user action that opens the tab list. It
carries an id, a display `mode` (NORMAL = 0, REVERSE = 1, HORIZONTAL = 2) and a
flag `isLeftButton`. The action is stored in two formats:

- a JSON object `{"1": mode, "2": isLeftButton}` written after the id. The reader
  also accepts the legacy boolean field `"0"`: true means REVERSE and false
  means NORMAL;
- a parcel record `[id, mode]` for passing the action between processes.

The user changes the settings in a dialog with two spinners.

This project models that class and proves what its codecs do:

- `basics.dfy`: 32-bit `Int`s, `Option` and `Result`.
- `json_stream.dfy`: the JSON tokens a streaming parser reports, the parser's
  int coercion of numeric tokens, and a generator that records the tokens it writes.
- `parcel.dfy`: a parcel as a buffer of ints with a data position.
- `tab_list_single_action.dfy`: the action as a class with mutable `mode` and
  `isLeftButton`. The JSON reader is a loop over the token stream that updates
  those fields. It is specified by `Decode`, a fold of `Step` over the object's
  members. The JSON writer, the parcel writer and reader, and the dialog's OK
  callback are methods that change the fields or the output they are given.
- `tab_list_properties.dfy`: the reader's rules as lemmas, and both round trips.
  The reader's rules are: defaults, the per-field rules, unknown fields ignored,
  a later write overwrites an earlier one, and failure exactly on a number that
  does not fit an int. The JSON round trip is exact. The parcel round trip loses
  the button side.

The reader is written in Kotlin as a constructor that may raise an `IOException`.
Here it is the static method `FromJson`, which allocates the action and returns a
`Result`.

## Model

| member | source | states |
|---|---|---|
| `TabListAction.TabListSingleAction.constructor` | app/src/main/java/jp/hazuki/yuzubrowser/action/item/TabListSingleAction.kt:34-38 | a new action has the given id, mode HORIZONTAL and the button on the right |
| `TabListAction.TabListSingleAction.FromJson` | app/src/main/java/jp/hazuki/yuzubrowser/action/item/TabListSingleAction.kt:40-63 | the loop over the stream succeeds exactly when `Decode` does; on success the action has the given id and the decoded settings, and the parser stands just after the object's end (or after the one non-object token read, a nested value counting as one unit) |
| `TabListAction.EndFrom` | app/src/main/java/jp/hazuki/yuzubrowser/action/item/TabListSingleAction.kt:44-61 | the reading loop stops at the first END_OBJECT token at or after the position it starts from, which lies inside the stream |
| `TabListAction.TabListSingleAction.WriteIdAndData` | app/src/main/java/jp/hazuki/yuzubrowser/action/item/TabListSingleAction.kt:65-72 | the generator receives the id, then an object with field "1" = mode and field "2" = isLeftButton, appended after what it held |
| `TabListAction.TabListSingleAction.WriteToParcel` | app/src/main/java/jp/hazuki/yuzubrowser/action/item/TabListSingleAction.kt:78-81 | the parcel gets `[id, mode]` written at its data position, which moves past them; nothing of the button side is written |
| `TabListAction.TabListSingleAction.FromParcel` | app/src/main/java/jp/hazuki/yuzubrowser/action/item/TabListSingleAction.kt:83-85 | the id is the first int read and the mode the second; the button side stays on the right; the parcel's data is unchanged |
| `TabListAction.TabListSingleAction.OnDialogOk` | app/src/main/java/jp/hazuki/yuzubrowser/action/item/TabListSingleAction.kt:97-100 | after OK the mode is the mode spinner's position, and the button is on the left exactly when the button spinner's position is above 0 |
| `JsonStream.Truncate` | app/src/main/java/jp/hazuki/yuzubrowser/action/item/TabListSingleAction.kt:52-53 | a floating-point value under field "1" becomes the int nearest to it on the side of zero |
| `TabListProperties.StepWrites` | app/src/main/java/jp/hazuki/yuzubrowser/action/item/TabListSingleAction.kt:45-58 | one member fails exactly when it is a number under "1" that does not fit an int. Otherwise it writes the mode ("0" with a boolean: REVERSE or NORMAL; "1" with a number) and/or the button side ("2" with a boolean), and leaves the rest as it was |
| `TabListProperties.ApplyIsLastWrite` | app/src/main/java/jp/hazuki/yuzubrowser/action/item/TabListSingleAction.kt:44-61 | members are applied in stream order. The result's mode and button side are those of the last member that writes each, or the initial ones. The read fails exactly when some member is rejected |
| `TabListProperties.UnknownFieldsIgnored` | app/src/main/java/jp/hazuki/yuzubrowser/action/item/TabListSingleAction.kt:57-58 | members whose names are not "0", "1" or "2", nested values included, leave the settings unchanged |
| `TabListProperties.LegacyFieldAsMode` | app/src/main/java/jp/hazuki/yuzubrowser/action/item/TabListSingleAction.kt:45-53 | anywhere in an object, legacy `"0": true` reads as `"1": 1` (REVERSE) and `"0": false` as `"1": 0` (NORMAL) |
| `TabListProperties.DefaultsWithoutKnownFields` | app/src/main/java/jp/hazuki/yuzubrowser/action/item/TabListSingleAction.kt:35-43 | a null parser, an empty stream, a first token other than START_OBJECT, or an object without known fields gives mode HORIZONTAL and the button on the right |
| `TabListProperties.LaterFieldWins` | app/src/main/java/jp/hazuki/yuzubrowser/action/item/TabListSingleAction.kt:44-61 | `"0": true` then `"1": 0` gives NORMAL, and `"1": 0` then `"0": true` gives REVERSE |
| `TabListProperties.ModeNotRangeChecked` | app/src/main/java/jp/hazuki/yuzubrowser/action/item/TabListSingleAction.kt:51-53 | `"1": 7` is accepted as mode 7, which is none of the three modes; `"1": 2147483648` makes the read fail |
| `TabListProperties.ObjectRoundTrip` | app/src/main/java/jp/hazuki/yuzubrowser/action/item/TabListSingleAction.kt:66-72 | the object the writer emits, followed by anything, decodes to the settings written, and the reader takes exactly its six tokens |
| `TabListProperties.JsonRoundTrip` | app/src/main/java/jp/hazuki/yuzubrowser/action/item/TabListSingleAction.kt:41-72 | writing an action as JSON and reading it back succeeds and gives the same id, mode and button side |
| `TabListProperties.RecordReadBack` | app/src/main/java/jp/hazuki/yuzubrowser/action/item/TabListSingleAction.kt:78-85 | a record written at any position of a parcel reads back from that position as the id, then the mode, two ints further on |
| `TabListProperties.ParcelRoundTrip` | app/src/main/java/jp/hazuki/yuzubrowser/action/item/TabListSingleAction.kt:78-85 | a copy through a parcel keeps the id and the mode and always has the button on the right, so it equals the original exactly when the original's button is on the right |
| `TabListProperties.ConfirmDialogUnchanged` | app/src/main/java/jp/hazuki/yuzubrowser/action/item/TabListSingleAction.kt:92-99 | for an action whose mode is one the mode spinner offers (0 to 2), pressing OK on spinners left where the dialog set them from the settings leaves the settings as they were |

## Left out

- `SwipeWebView.kt`, `DeleteSelectedDialog.java` and `ThemeImportActivity.kt` are not part of this model. They are widget, dialog and activity glue with no rule of their own worth stating.
- The dialog of `showSubPreference` (lines 87-105) is not modelled: view inflation, spinners, `AlertDialog` and its display. Only the OK callback is modelled, as an update of the two fields. Cancel changes nothing.
- `describeContents` (always 0), `CREATOR.newArray` and the `Logger.w` warning are left out. They compute nothing that the settings depend on.
- The JSON parser is a token sequence, not Jackson. A malformed or truncated object is excluded by `Readable`. The loop relies on the library's end-of-input behaviour for those.
- A nested object or array is one `Nested` token. Under an unknown name, the model passes over it as `skipChildren` does. Under "0", "1" or "2", the source calls no `skipChildren`. The real parser would then read on inside the nested value. The model instead leaves the settings unchanged and goes on with the next member.
- An unknown member takes two turns of the source's loop: `skipChildren` on the name does nothing, then it skips the value. The model handles the name and the value in one turn, with the same effect.
- A floating-point value is carried as the exact value of the parsed double. The rounding of decimal text to a double is not modelled.
- TabListAction.TabListSingleAction.FromJson: on failure, the contract says nothing about where the parser stands. The source raises an exception there, and no caller reads on.
- TabListAction.TabListSingleAction.FromJson: when the first token is a nested array or object (`Nested`), the source reads only its opening token at line 43 and leaves the parser inside it; the model, which sees that value as one unit, puts the parser after the whole unit.
- The caller that reads the id from the JSON stream before the object, and the base class that holds the id, are not part of this model. `JsonRoundTrip` passes the written id on, as that caller would.
- Parcels hold only the ints this class uses. Reading past the end gives 0 and does not move the position, as Android's `Parcel.readInt` does.
- An ignored value leaves the field at its current value, which an earlier member may have set. Only the `"0"` branch logs (line 49); the logging is not modelled.
