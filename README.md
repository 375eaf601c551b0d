# YOLO Data Labeler: annotation core

A Dafny model of the annotation core of the YOLO Data Labeler (`DataLabeler.py`),
a Tkinter tool for drawing bounding boxes over images and saving them as YOLO
text files plus a JSON record per image. With the widgets taken away, that core
consists of:

- the **label list**: an ordered, duplicate-free list of class names, with
  add, remove and select;
- the **annotation store** of the open image, and the press/drag/release cycle
  that commits a box. A box is committed only after the size test, with
  corners divided by the display scale and sorted. Right-click delete and
  clear-all change the store too;
- the **YOLO line** of each box: the class id, the centre and the extent
  normalised by the image size. The class id is the label's index, or 0 when
  the label is gone;
- the **JSON record** that a save writes and a later load reads back. A load
  merges the saved labels and appends the saved boxes;
- **Next/Previous image**: the wrap-around index arithmetic over the sorted
  file list.

Files: `wrappers.dfy` (Option, Result), `text.dfy` (Python `str.strip`,
`os.path.basename`), `labels.dfy` (label-list values: index lookup, class id,
removal, merge), `annotations.dfy` (boxes, store entries, the record, commit
geometry), `yolo.dfy` (YOLO lines), `navigation.dfy` (Next/Previous),
`labeler.dfy` (class `Labeler`: the editing state and the methods that change it).

Modelling choices:

- Coordinates and the display scale are `real`. The image size is a positive `nat`.
- A canvas shape id is an opaque positive `Handle` supplied by the caller. Tk numbers
  shapes from 1, and `if self.current_rect:` (`DataLabeler.py:283`, `:290`) reads 0 as "no drag".
- The record is a datatype, and a missing record file is `None`.
- "No image open" is the empty path. The Python code checks whether the path is truthy, and an empty path is not.
- `DataLabeler.py:159-160` divide by the image's width and height, so an opened
  image has positive dimensions. `Labeler.LoadImage` requires that.
- The label listbox mirrors `labels` exactly, so a selection index is always
  a position of `labels`. `RemoveLabel` and `SelectLabel` require that.

Behaviour of the code worth knowing:

- Removing a label renumbers every label after it. `Labels.ClassIdAfterRemove`
  states the ids that result. So class ids are not stable for labels listed
  after the removed one.
- Loading a record does not check the saved boxes (`DataLabeler.py:443-462`).
  Whatever corners the file holds enter the store, so `x1 < x2 && y1 < y2`
  is not a class invariant. Only boxes drawn on the canvas are ordered
  (`Annotations.CommitBox`, `Labeler.EndRectangle`), and `Labeler.Valid` does
  not include `AllOrdered`.
- Loading a record appends to the store; it does not replace it. The store is
  empty only because opening an image clears it first (`Labeler.LoadImage`).
- Releasing the mouse does not re-check the selected label. The box takes
  whatever label is current at release.
- The COCO, Pascal VOC and PyTorch exporters and the train/val split are not
  part of this program. They are not modelled.

## Model

| member | source | states |
|---|---|---|
| `Text.Strip` | DataLabeler.py:239 | the entry text with the whitespace run at each end removed; it is a slice of the input, it is empty exactly when the input is all whitespace, and its ends are not whitespace |
| `Text.StripIdempotent` | DataLabeler.py:239 | stripping an already stripped label changes nothing |
| `Text.BaseName` | DataLabeler.py:198 | the file name is the suffix of the path after its last '/', and holds no '/' |
| `Labels.IndexOf` | DataLabeler.py:377-378 | `list.index`: none exactly when the item is absent, otherwise the first position holding it |
| `Labels.ClassId` | DataLabeler.py:377-380 | the class id is the first position of the label in the list, or 0 when it is not listed |
| `Labels.AppendNoDuplicates` | DataLabeler.py:240-241 | appending a label the list does not hold keeps the list duplicate-free |
| `Labels.RemoveAt` | DataLabeler.py:252 | `del labels[k]`: one shorter, positions before k kept, later ones shifted down by one |
| `Labels.RemoveAtNoDuplicates` | DataLabeler.py:252 | removing a label keeps the list duplicate-free |
| `Labels.ClassIdAfterRemove` | DataLabeler.py:377-380 | after removing position k, the removed label exports as class 0, earlier labels keep their id and later ones lose one |
| `Labels.MergeLabels` | DataLabeler.py:435-439 | the merged list starts with the current list unchanged, holds exactly the current and saved labels, and stays duplicate-free |
| `Labels.Unseen` | DataLabeler.py:436-438 | the labels a load adds are exactly the saved labels not already listed; each saved label that is neither listed nor earlier in the file, in file order |
| `Labels.MergeSnoc` | DataLabeler.py:437-438 | one more step of the merge loop appends the saved label exactly when the list does not yet hold it |
| `Labels.MergeAppendsUnseen` | DataLabeler.py:435-439 | the merged list is the current list unchanged, followed by the unseen saved labels in file order, each once |
| `Labels.MergeExample` | DataLabeler.py:435-439 | current `["cat"]` merged with saved `["dog", "bird"]` gives `["cat", "dog", "bird"]` |
| `Labels.MergeKnown` | DataLabeler.py:435-439 | merging labels the list already holds leaves it unchanged |
| `Labels.MergeIntoEmpty` | DataLabeler.py:435-439 | merging a duplicate-free saved list into an empty list gives the saved list in file order |
| `Annotations.SortedBox` | DataLabeler.py:307-308 | each axis of the box holds the two given coordinates, ascending; distinct coordinates give an ordered box |
| `Annotations.TooSmall` | DataLabeler.py:295 | a drag that passes the size test moves at least 5 display pixels along each axis, so its corners differ on both axes |
| `Annotations.CommitBox` | DataLabeler.py:295-308 | the committed box holds the two drag corners divided by the scale, sorted per axis; a drag that passes the size test yields x1 < x2 and y1 < y2 |
| `Annotations.Saved` | DataLabeler.py:400-404 | the record's annotation list has one entry per store entry, in store order, with the same label and bbox |
| `Annotations.Attach` | DataLabeler.py:442-462 | loaded store entries keep the saved labels and bboxes in file order, each with its shape's handle |
| `Annotations.SavedAttach` | DataLabeler.py:458-462 | saving entries created by a load gives back exactly the loaded annotations |
| `Annotations.SavedAppend` | DataLabeler.py:458-462 | the record of a store with loaded entries appended is the old record followed by the loaded annotations |
| `Annotations.FirstWithHandle` | DataLabeler.py:334-335 | none exactly when no entry has the handle; otherwise the first entry that has it |
| `Yolo.ToYolo` | DataLabeler.py:376-388 | the line's class id is `ClassId` of the label; the corners are recovered as (cx ∓ w/2)·W and (cy ∓ h/2)·H; an ordered box has positive w and h |
| `Yolo.YoloLines` | DataLabeler.py:375-390 | one line per annotation, in store order, each the `ToYolo` line of that annotation |
| `Yolo.InsideImageIsNormalised` | DataLabeler.py:385-388 | a box inside the image maps to a centre in [0, 1] and an extent in (0, 1] without clamping |
| `Navigation.NextIndex` | DataLabeler.py:201 | `(i+1) % n` lies in [0, n) and wraps from the last file to the first |
| `Navigation.PrevIndex` | DataLabeler.py:222 | `(i-1) % n` lies in [0, n) and wraps from the first file to the last |
| `Navigation.PrevUndoesNext` | DataLabeler.py:199-224 | stepping back after stepping on returns to the start index, and the other way round |
| `Navigation.Navigate` | DataLabeler.py:186-224 | no image warns; no files informs; an unlisted current file does nothing; otherwise it opens the listed file one position on or back, wrapping |
| `Navigation.JoinPath` | DataLabeler.py:203 | `os.path.join(folder, name)` for a relative, non-empty file name from a directory listing: the folder, then '/', then the name |
| `Navigation.NavigateFrom` | DataLabeler.py:199-203 | when the current file is listed at position i, navigation opens the file at the next (or previous) index of i |
| `Navigation.BaseNameOfJoin` | DataLabeler.py:198-203 | the file name of `Unlabeled_Data/name` is `name` |
| `Navigation.NextThenPrevious` | DataLabeler.py:186-224 | in a listing of distinct names, Previous after Next reopens the current file |
| `DataLabeler.DisplayScale` | DataLabeler.py:158-161 | the display scale is positive, at most 1, fits the image in the 800x600 canvas, and is one of 1, 800/W, 600/H |
| `DataLabeler.Labeler.constructor` | DataLabeler.py:14-24 | a new labeler has no labels, no selection, an empty store, no drag, no image and scale 1 |
| `DataLabeler.Labeler.AddLabel` | DataLabeler.py:237-241 | appends the stripped text exactly when it is non-empty and unlisted, otherwise leaves the list; nothing else changes and the list stays duplicate-free |
| `DataLabeler.Labeler.RemoveLabel` | DataLabeler.py:246-252 | deletes exactly the selected position and keeps the order of the rest; with no selection nothing changes; the store is not touched |
| `DataLabeler.Labeler.SelectLabel` | DataLabeler.py:256-260 | the selected row's label becomes current; with no selection nothing changes |
| `DataLabeler.Labeler.StartRectangle` | DataLabeler.py:263-279 | without an open image, or else without a selected label, it refuses and changes nothing; otherwise it records the start point and the drag's shape |
| `DataLabeler.Labeler.DrawRectangle` | DataLabeler.py:281-286 | shows a rectangle from the start point to the pointer only while a drag is in progress, and changes no state |
| `DataLabeler.Labeler.EndRectangle` | DataLabeler.py:288-321 | with no drag, nothing; a too-small drag stores nothing and ends the drag; otherwise it appends exactly one entry (current label, `CommitBox`, the drag's shape) after the unchanged earlier ones, ends the drag, and keeps all boxes ordered |
| `DataLabeler.Labeler.DeleteAnnotation` | DataLabeler.py:324-340 | removes only the first entry with the clicked handle, keeps the order of the rest, and changes nothing when no entry has it |
| `DataLabeler.Labeler.ClearAnnotations` | DataLabeler.py:342-345 | the store is empty |
| `DataLabeler.Labeler.LoadExisting` | DataLabeler.py:421-462 | with no open image or no record, nothing changes; otherwise it appends the unseen saved labels in file order and appends the saved annotations in file order with bboxes unchanged |
| `DataLabeler.Labeler.MergeSavedLabels` | DataLabeler.py:435-439 | the label loop leaves `MergeLabels` of the old list and the saved labels: the old list followed by the unseen saved labels in file order |
| `DataLabeler.Labeler.AppendSaved` | DataLabeler.py:442-462 | the annotation loop appends the saved annotations, in file order, after the existing entries |
| `DataLabeler.Labeler.LoadImage` | DataLabeler.py:148-178 | opening an image sets its path and size, recomputes the display scale, empties the store and then loads the image's record |
| `DataLabeler.Labeler.StepImage` | DataLabeler.py:186-224 | takes the step `Navigate` decides from the open image; when it opens a file, the path is `Unlabeled_Data/<file>`, the image counts as loaded with the given size, the scale is `DisplayScale` of that size (line 161), and the labels and store are as after `LoadImage`; otherwise nothing changes |
| `DataLabeler.Labeler.Save` | DataLabeler.py:357-413 | refused exactly when no image is open or the store is empty; otherwise the YOLO lines of the store, the record (path, size, current labels, entries without handles in store order) and the label list for `classes.txt` |
| `DataLabeler.SaveThenReopen` | DataLabeler.py:148-178 | saving the open image and reopening it with the written record restores the store's labels and boxes in order and leaves the label list and image size unchanged |
| `DataLabeler.SaveThenLoad` | DataLabeler.py:393-462 | loading a saved record gives back the same labels and bboxes in the same order, the record of an ordered store holds only ordered boxes and they stay ordered once loaded, and the saved label list merges to the session's own list or rebuilds it in a fresh session |

## Left out

- Tkinter: widget construction, listbox mirroring, the status bar, message boxes and the file dialog (`DataLabeler.py:38-146`). These are display only. The outcome datatypes stand for the warnings.
- `update_annotations_list`: the listbox text with `.0f` rounding (`DataLabeler.py:349-355`). It is display only.
- Canvas hit-testing (`find_overlapping`, `gettags`) and `canvasx`/`canvasy`: these are canvas services. `DeleteAnnotation` takes the clicked shape's handle. The source loops over every overlapping shape tagged "annotation", and the model covers the iteration that deletes.
- PIL: image opening and LANCZOS resizing, and the `int()` truncation of the display size. The image size is an input to `LoadImage`.
- Exceptions: an image that fails to open, a save that fails to write, and a record that does not decode. In the source, a malformed record can leave a partial merge behind. The record is a typed value here, so these paths do not arise.
- File and JSON I/O: file names (`splitext`, `<name>.txt`, `<name>.json`), `classes.txt` writing, and `os.makedirs`. `Save` returns what would be written.
- `Yolo.ToYolo`: computed over exact reals, not IEEE doubles, so its corner round trip is exact. The source only reaches it within floating-point rounding.
- The six-decimal formatting of YOLO fields (`DataLabeler.py:390`). This is float-to-string rendering.
- `get_image_files`: directory scanning and the extension filter (`DataLabeler.py:228-235`). `Navigate` and `Labeler.StepImage` take the sorted file list as an input.
- The multiplication by the display scale when loaded boxes are redrawn (`DataLabeler.py:446-455`). It is display only; the stored bbox is unscaled.
- `Text.BaseName`: POSIX paths only. The Windows separator `\` is not treated as a separator.
