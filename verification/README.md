# StratifyAPI core, modelled in Dafny

This project models the self-contained logic of the StratifyAPI C++
library for Stratify OS and proves properties of it. It covers:

- `var::Ring<T>`, a fixed-capacity FIFO circular buffer. It is a class over
  an array, with `head`, `tail` and the "full" sentinel `tail == count`,
  proved against its abstract contents, oldest item first.
- `var::ConstString`, the searches (`find`, `find_not`, `rfind`) and the
  `compare` overloads over a NUL-terminated string.
- `var::VersionString`: the dotted decimal text, `to_bcd` and `compare`.
- `sys::JsonPrinter`, the append-only JSON emitter and its "first element"
  comma flag.
- `sys::Assets`: directory scanning, the `find_font` matching rule and
  `find_vector_path`.
- The `sys::Appfs` helpers:
  - `AppfsFileAttributes::apply`;
  - the page-sized write loop of `create`;
  - the validation of `get_info` and `get_id`;
  - the directory loop of `cleanup`.
- `draw::DrawingAttributes` and `draw::Drawing`:
  - the conversion from the 0..scale drawing space to bitmap pixels;
  - `operator+`;
  - the flag bitset;
  - the checkerboard patterns.
- `sgfx::Region`, and the `sgfx::Vector` builders, the `VectorMap`
  geometry and the icon tables of the `draw_*` functions.
- `var::Message`: the state machine (`create`, `edit`, `read`,
  `calc_size`) and the framing loops `recv_data`, `send_data` and
  `recv_start`.
- `sys::Aio`: the `aiocb` field updates and the timespec that `suspend`
  builds.

The code that updates fields in place is modelled as classes whose
methods are proved against specification functions. Examples are
`Ring`, `JsonPrinter`, `Assets`, `Message`, `Aio`, `Region`,
`DrawingAttributes`, `Drawing` and the `VectorMap` and icon canvas.

Arithmetic and decision rules are modelled as functions with lemmas.
Anything outside the library (the filesystem, the device, the image
functions, the graphics API) is a parameter:

- A directory listing is a sequence.
- A device is a script of replies.
- A system call is represented by the results it returns.

Integers are unbounded. C's truncating `/` and `%` are written out in
`CInt`. Widths are bounded by preconditions where the source relies on
them not wrapping.

## Model

| member | source | states |
|---|---|---|
| CInt.CDivRem | include/sys/Aio.hpp:89-92 | C's truncating quotient and remainder satisfy q*b + r == a with \|r\| < b, agree with Euclidean division for a >= 0, and are odd functions of a |
| RingBuffer.Ring.constructor | include/var/Ring.hpp:60-65 | Ring(count) starts empty (head = tail = 0) with overflow allowed, over `count` fresh slots, with the ring invariant established |
| RingBuffer.Ring.OnBuffer | include/var/Ring.hpp:48-53 | Ring(buf, count) starts empty with overflow allowed over the caller's buffer |
| RingBuffer.Ring.IsFull | include/var/Ring.hpp:95 | is_full() holds exactly when the ring holds `count` items |
| RingBuffer.Ring.IsEmpty | include/var/Ring.hpp:96 | is_empty() holds exactly when the ring holds no item |
| RingBuffer.Ring.CountReadyAsWritten | include/var/Ring.hpp:82-93 | count_ready() as written is the number of items on a non-empty ring, but `count` on an empty one |
| RingBuffer.Ring.CountReady | include/var/Ring.hpp:82-96 | count_ready() as intended: the number of items, never above count, 0 exactly when empty and count exactly when full |
| RingBuffer.Ring.SetOverflowAllowed | include/var/Ring.hpp:109-111 | sets the overflow flag and leaves the contents and indices unchanged |
| RingBuffer.Ring.At | include/var/Ring.hpp:123-137 | at(pos) reads slot (head + pos) mod count; on a full ring that is the pos-th oldest item |
| RingBuffer.Ring.AtOldest | include/var/Ring.hpp:117-122 | at(pos) as documented: the pos-th oldest item for every pos below count_ready() |
| RingBuffer.Ring.Back | include/var/Ring.hpp:139-155 | back() is the oldest item of a non-empty ring |
| RingBuffer.Ring.Front | include/var/Ring.hpp:156-171 | front() is the newest item of a non-empty ring |
| RingBuffer.Ring.Push | include/var/Ring.hpp:178-197 | push appends the value as newest and returns 0 when there is room; on a full ring it drops exactly the oldest item (overflow allowed, returns 0) or returns -1 and changes nothing; the invariant is kept |
| RingBuffer.Ring.Pop | include/var/Ring.hpp:204-216 | pop does nothing on an empty ring, otherwise removes exactly the oldest item, and a full ring stops being full |
| RingBuffer.Ring.PushAll | include/var/Ring.hpp:233-238 | operator<< leaves the contents `Feed` gives: every element pushed in index order under push's rules |
| RingBuffer.Ring.RotateForward | include/var/Ring.hpp:257-264 | on a full ring the newest item becomes the oldest and 0 is returned; otherwise -1 and nothing changes |
| RingBuffer.Ring.RotateBackward | include/var/Ring.hpp:282-290 | on a full ring the oldest item becomes the newest and 0 is returned; otherwise -1 and nothing changes |
| RingBuffer.Ring.ToLinearData | include/var/Ring.hpp:223-231 | to_linear_data() copies all count slots in at() order, which is the contents oldest first on a full ring |
| RingBuffer.PushSpec | include/var/Ring.hpp:178-197 | one push grows the contents by one when there is room and keeps them at count items when full |
| RingBuffer.Feed | include/var/Ring.hpp:233-238 | pushing a sequence never holds more than count items |
| RingBuffer.LastN | include/var/Ring.hpp:98-107 | the newest n items of a sequence, or all of it when shorter |
| RingBuffer.FeedWithOverflowKeepsNewest | include/var/Ring.hpp:98-107 | with overflow allowed, pushing any sequence keeps exactly the newest count items of old contents + input |
| RingBuffer.FeedWithoutOverflowKeepsOldest | include/var/Ring.hpp:98-107 | with overflow refused, pushing any sequence keeps the old contents and then the first input items until full |
| RingBuffer.FifoOrder | include/var/Ring.hpp:18-27 | on a fresh ring, two pushes then back(), pop(), back() read the items in push order |
| RingBuffer.OverflowDropsOldest | include/var/Ring.hpp:179-195 | a third push on a full two-slot ring with overflow allowed drops the oldest item and keeps two |
| RingBuffer.RotateRoundTrip | include/var/Ring.hpp:257-290 | on any ring, rotate_forward then rotate_backward leaves the contents as they were; both return 0 when the ring is full and -1 otherwise |
| RingBuffer.CountReadyOnEmptyRing | include/var/Ring.hpp:82-93 | on a fresh ring of 4 slots, count_ready() as written reports 4 where the intended value is 0 |
| RingBuffer.AtZeroIsNotOldest | include/var/Ring.hpp:117-126 | after push 1, push 2, pop on a two-slot ring, at(0) reads the popped 1 while the only item is 2 |
| ConstString.ConstString.constructor | src/var/ConstString.cpp:6-13 | a null pointer gives the empty string; otherwise the view is the given C string |
| ConstString.ConstString.SetStringPointer | src/var/ConstString.cpp:15-21 | a null pointer points the view at the empty string; otherwise at the given C string |
| ConstString.ConstString.At | src/var/ConstString.cpp:31-36 | at(pos) is the character at pos below the length, and '\0' exactly at or past the end |
| ConstString.ConstString.FindN | src/var/ConstString.cpp:59-74 | find(s, pos, n) is NPOS for an empty s or n above the length; otherwise the least i >= pos whose n characters match those of s, or NPOS when no such i exists |
| ConstString.ConstString.Find | src/var/ConstString.cpp:39-41 | find(s, pos) is the first occurrence of all of s at or after pos, NPOS when there is none or s is empty |
| ConstString.ConstString.FindChar | src/var/ConstString.cpp:43-48 | find(c, pos) is the first position at or after pos holding c, NPOS when none; '\0' is never found |
| ConstString.ConstString.FindNot | src/var/ConstString.cpp:50-56 | find_not(a, pos) is never below pos; it is the first position at or after pos holding a, or length() when none |
| ConstString.ConstString.RfindN | src/var/ConstString.cpp:87-102 | rfind(s, pos, n) clamps n to s's length and gives the largest matching i in [pos, length() - n], NPOS when none or s is empty |
| ConstString.ConstString.Rfind | src/var/ConstString.cpp:76-78 | rfind(s, pos) is the last occurrence of all of s at or after pos, NPOS when none |
| ConstString.ConstString.RfindChar | src/var/ConstString.cpp:80-85 | rfind(c, pos) is the last position at or after pos holding c, NPOS when none |
| ConstString.ConstString.CompareLen | src/var/ConstString.cpp:104-106 | compare(pos, len, s) is 0 exactly when the first len characters at pos equal the first len characters of s |
| ConstString.ConstString.CompareSub | src/var/ConstString.cpp:108-123 | bounded lengths that differ give their difference; otherwise 0 exactly when the two substrings are equal |
| ConstString.ConstString.Compare | src/var/ConstString.cpp:125-127 | compare(s) is 0 exactly when the whole text equals s |
| ConstString.ConstString.CompareCount | src/var/ConstString.cpp:129-141 | fewer than n characters left at pos give l - n, which is negative; otherwise 0 exactly when the n characters at pos match s |
| ConstString.StrncmpZero | src/var/ConstString.cpp:104-106 | strncmp on C strings is 0 exactly when their first n characters agree |
| ConstString.StrcmpZero | src/var/ConstString.cpp:125-127 | strcmp on C strings is 0 exactly when the strings are equal |
| ConstString.StrncmpMatch | src/var/ConstString.cpp:59-74 | strncmp of the text at i against s over n available characters is 0 exactly when they match there |
| Decimal.NatText | src/var/VersionString.cpp:6-8 | "%d" of a natural number is non-empty decimal digits with no leading zero |
| Decimal.IntText | src/sys/JsonPrinter.cpp:126-131 | "%d" of an integer is digits, preceded by '-' exactly for a negative value |
| Decimal.LeadingDigits | src/var/VersionString.cpp:29 | atoi reads the longest prefix made of digits, stopping at the first non-digit |
| Decimal.AtoiNatText | src/var/VersionString.cpp:6-32 | reading back the "%d" text of n gives n |
| Decimal.NatTextInjective | src/var/VersionString.cpp:6-21 | distinct values have distinct decimal texts |
| Version.Split | src/var/VersionString.cpp:25 | splitting on '.' always gives at least one token, keeping empty tokens |
| Version.SplitJoin | src/var/VersionString.cpp:25 | splitting "t.u", where t has no dot, gives t followed by the tokens of u |
| Version.Text3Tokens | src/var/VersionString.cpp:6-8 | the text "a.b.c" splits into the three decimal texts |
| Version.Text2Tokens | src/var/VersionString.cpp:10-13 | the text "a.b" splits into the two decimal texts |
| Version.VersionString.constructor | src/var/VersionString.cpp:6-8 | the version is "major.minor.patch", three tokens holding the decimal values |
| Version.VersionString.SetU16 | src/var/VersionString.cpp:10-13 | << u16 gives the two tokens value >> 8 and value & 0xff |
| Version.VersionString.SetU32 | src/var/VersionString.cpp:15-21 | << u32 gives the three tokens v >> 16 (unmasked), (v >> 8) & 0xff and v & 0xff |
| Version.VersionString.ToBcd | src/var/VersionString.cpp:24-32 | to_bcd is below 2^24 and holds the first three token values, each masked to 8 bits, at bits 16, 8 and 0, with 0 for a missing token |
| Version.PackedLayout | src/var/VersionString.cpp:24-32 | the packed value holds the three token bytes at bits 16, 8 and 0, each recoverable on its own |
| Version.PackedText3 | src/var/VersionString.cpp:24-32 | the text "a.b.c" of three byte values packs to a, b and c at bits 16, 8 and 0 |
| Version.PackedRoundTrip | src/var/VersionString.cpp:15-32 | the text that << u32 writes for v < 2^24 packs back to v |
| Version.U32RoundTrip | src/var/VersionString.cpp:15-32 | to_bcd() after << v returns v for every v < 2^24 |
| Version.Compare | src/var/VersionString.cpp:34-58 | compare is 1 or -1 on different token counts; otherwise it is 0 exactly when all token values are equal |
| Version.CompareAntisymmetric | src/var/VersionString.cpp:34-58 | compare(a, b) == -compare(b, a) |
| Version.CompareZero | src/var/VersionString.cpp:34-58 | two versions compare equal exactly when they have the same token values |
| Version.CompareFirstDifference | src/var/VersionString.cpp:46-54 | with equal counts, a non-zero result is the sign of the first differing token value |
| Json.Start | src/sys/JsonPrinter.cpp:10-22 | a new printer has the first-element flag set |
| Json.Step | src/sys/JsonPrinter.cpp:32-155 | an opening call re-arms the flag and a scalar clears it; a separated call writes the separator before its payload; the others append their text and keep the flag |
| Json.RunFromGrows | src/sys/JsonPrinter.cpp:10-155 | output only grows: the text before further calls is a prefix of the text after them |
| Json.RunGrows | src/sys/JsonPrinter.cpp:10-155 | the text after some calls is a prefix of the text after any longer sequence of calls |
| Json.ScalarsAfterFirst | src/sys/JsonPrinter.cpp:32-38 | once the flag is clear, each further element is preceded by exactly one comma |
| Json.ScalarsJoined | src/sys/JsonPrinter.cpp:32-38 | after an opening, a run of elements is written with no comma before the first and one before each later element |
| Json.NestedFirstChild | src/sys/JsonPrinter.cpp:40-54 | opening a nested object or array gives its first child no comma |
| Json.UnkeyedFalseDoubleComma | src/sys/JsonPrinter.cpp:146-155 | unkeyed false and null write ", false" and ", null" after the separator, so a second element shows two commas |
| Json.JsonPrinter.constructor | src/sys/JsonPrinter.cpp:10-22 | opens with "\n{" or "\n[" and sets the first-element flag |
| Json.JsonPrinter.End | src/sys/JsonPrinter.cpp:24-30 | end() appends "}\n" or "]\n", matching the kind chosen at construction |
| Json.JsonPrinter.AppendSeparator | src/sys/JsonPrinter.cpp:32-38 | appends "," unless the flag was set, and clears the flag |
| Json.JsonPrinter.AppendKeyedObject | src/sys/JsonPrinter.cpp:40-46 | separator, then "\"key\": {", and the flag re-armed |
| Json.JsonPrinter.AppendKeyedArray | src/sys/JsonPrinter.cpp:48-54 | separator, then "\"key\": [", and the flag re-armed |
| Json.JsonPrinter.EndObject | src/sys/JsonPrinter.cpp:56-58 | appends "}" alone and leaves the flag as it is |
| Json.JsonPrinter.EndArray | src/sys/JsonPrinter.cpp:60-62 | appends "]" alone and leaves the flag as it is |
| Json.JsonPrinter.AppendKeyedString | src/sys/JsonPrinter.cpp:64-69 | separator, then "\"key\": \"value\"" |
| Json.JsonPrinter.AppendKeyedNumber | src/sys/JsonPrinter.cpp:71-76 | separator, then the key and the decimal number in quotes |
| Json.JsonPrinter.AppendKeyedTrue | src/sys/JsonPrinter.cpp:86-91 | separator, then "\"key\":true" |
| Json.JsonPrinter.AppendKeyedFalse | src/sys/JsonPrinter.cpp:93-98 | separator, then "\"key\":false" |
| Json.JsonPrinter.AppendKeyedNull | src/sys/JsonPrinter.cpp:100-105 | separator, then "\"key\": null" |
| Json.JsonPrinter.AppendObject | src/sys/JsonPrinter.cpp:107-111 | separator, then "{", and the flag re-armed |
| Json.JsonPrinter.AppendArray | src/sys/JsonPrinter.cpp:113-117 | separator, then "[", and the flag re-armed |
| Json.JsonPrinter.AppendString | src/sys/JsonPrinter.cpp:119-124 | separator, then the value in quotes |
| Json.JsonPrinter.AppendNumber | src/sys/JsonPrinter.cpp:126-131 | separator, then the decimal number in quotes |
| Json.JsonPrinter.AppendTrue | src/sys/JsonPrinter.cpp:141-144 | separator, then "true" |
| Json.JsonPrinter.AppendFalse | src/sys/JsonPrinter.cpp:146-150 | separator, then ", false" |
| Json.JsonPrinter.AppendNull | src/sys/JsonPrinter.cpp:152-155 | separator, then ", null" |
| AssetLists.FontsInFromSbf | src/sys/Assets.cpp:40-51 | exactly the "sbf" files of a listing become fonts, with path dir + "/" + file name |
| AssetLists.IconsInFromSvic | src/sys/Assets.cpp:53-66 | exactly the "svic" files of a listing become icon files, with path dir + "/" + file name |
| AssetLists.Closest | src/sys/Assets.cpp:83-97 | the closest point size and style found so far never exceed the requested ones |
| AssetLists.FindFontSameClass | src/sys/Assets.cpp:80-132 | a font found is always in the requested ICONS or non-ICONS class |
| AssetLists.FindFontExactFirst | src/sys/Assets.cpp:87-107 | when an exact match exists, the first one in list order is returned, whatever the flag |
| AssetLists.FindFontExactOnly | src/sys/Assets.cpp:111-114 | with is_exact_match set, the result is an exact match or nothing |
| AssetLists.FindFontFallbackNotLarger | src/sys/Assets.cpp:117-131 | a fallback never has a larger point size or style than requested |
| AssetLists.Assets.constructor | src/sys/Assets.cpp:20-38 | before the first initialize() both lists are empty and the latch is clear |
| AssetLists.Assets.FindFontsInDirectory | src/sys/Assets.cpp:40-51 | appends one font per "sbf" file of the listing, in listing order, and changes nothing else |
| AssetLists.Assets.FindIconsInDirectory | src/sys/Assets.cpp:53-66 | appends one icon file per "svic" file of the listing, in listing order, and changes nothing else |
| AssetLists.Assets.Initialize | src/sys/Assets.cpp:20-38 | returns 0 and latches; the first call scans the fonts, sorts them and scans the icons, and later calls change nothing |
| AssetLists.Assets.FindFont | src/sys/Assets.cpp:80-132 | the result is the matching rule applied to the initialized list; the font found is marked loaded and no other entry changes |
| AssetLists.Assets.FindVectorPath | src/sys/Assets.cpp:68-78 | the first (file, index) whose name matches, in scan order, or the empty path when no icon has that name |
| AppFs.AppliedRamSize | src/sys/Appfs.cpp:22-28 | the RAM size after apply is at least 4096: the attribute's if large enough, else the existing one if large enough, else 4096 |
| AppFs.ApplyIdempotent | src/sys/Appfs.cpp:15-31 | applying the same attributes twice leaves the same RAM size as applying them once |
| AppFs.Apply | src/sys/Appfs.cpp:15-31 | copies name, id, version and o_flags, sets mode 0777, and sets the RAM size by the rule above |
| AppFs.ChunksFromCover | src/sys/Appfs.cpp:79-103 | the remaining requests are contiguous from bw, none above a page or empty, and write code_size - bw bytes together |
| AppFs.ChunksCoverImage | src/sys/Appfs.cpp:46-103 | the requests of create() start at 0, each begins where the last ended, none exceeds a page, and together they write size + header bytes |
| AppFs.WriteChunks | src/sys/Appfs.cpp:79-105 | the loop makes a prefix of the planned requests, stops at the first failed request and returns its error, or returns code_size after all of them |
| AppFs.Create | src/sys/Appfs.cpp:37-106 | the flash path and header are set; -1 without requests when the install file does not open; otherwise the planned requests in order, up to the first failure, and size + header when all succeed |
| AppFs.GetInfo | src/sys/Appfs.cpp:116-165 | the info is valid exactly when the file opens, the whole header is read, the name is not a system or free-space file, the mode is executable and the header name is the file name; then it carries that header's fields |
| AppFs.GetId | src/sys/Appfs.cpp:185-194 | the id of a valid application, else the empty string |
| AppFs.ReservedNamesNotApplications | src/sys/Appfs.cpp:116-165 | a ".sys" or ".free" file is never an application, whatever its header says |
| AppFs.RamPathInjective | src/sys/Appfs.cpp:211-212 | distinct entry names give distinct "/app/ram/" paths |
| AppFs.UnlinksIntendedExactly | src/sys/Appfs.cpp:217 | an entry is unlinked exactly when its stat succeeded, its name does not start with '.', and it is executable or data is set |
| AppFs.NotUnlinkedElsewhere | src/sys/Appfs.cpp:210-223 | the intended clean-up unlinks no path whose name is not in the directory listing |
| AppFs.NotUnlinkedElsewhereAsWritten | src/sys/Appfs.cpp:210-223 | the clean-up as written, whatever stale status a failed stat leaves, unlinks no path whose name is not in the directory listing |
| AppFs.UnlinksAgreeWhenStatsSucceed | src/sys/Appfs.cpp:210-223 | when every stat succeeds, the code as written unlinks exactly the intended entries |
| AppFs.StaleStatDeletes | src/sys/Appfs.cpp:213-218 | a data-free clean-up unlinks a non-executable file whose stat failed right after an executable entry |
| AppFs.UnlinkEntries | src/sys/Appfs.cpp:210-223 | the loop unlinks a prefix of the as-written list, all of it when no unlink fails, and stops right after the first failed unlink |
| AppFs.Cleanup | src/sys/Appfs.cpp:199-229 | -1 when the directory does not open; 0 after unlinking the whole list; -1 right after the first failed unlink |
| Draw.ScaleToBitmap | src/draw/Drawing.cpp:19-23 | d out of max as a share of s pixels, rounded to nearest with halves up: r*max <= d*s + max/2 < (r+1)*max |
| Draw.ScaleMonotone | src/draw/Drawing.cpp:19-23 | a larger drawing value never lands on a smaller pixel |
| Draw.ScaleEnds | src/draw/Drawing.cpp:19-23 | max maps onto all s pixels and 0 onto pixel 0 |
| Draw.ScaleWithin | src/draw/Drawing.cpp:19-23 | a value inside the drawing space lands within the pixel extent |
| Draw.CalcWidthOnBitmap | src/draw/Drawing.cpp:97-106 | a value within scale lands within the width between the margins, and scale lands on all of it |
| Draw.CalcHeightOnBitmap | src/draw/Drawing.cpp:86-95 | a value within scale lands within the height between the margins, and scale lands on all of it |
| Draw.CalcDimOnBitmap | src/draw/Drawing.cpp:80-84 | an area within the drawing space fits inside the margins in pixels |
| Draw.CalcPointOnBitmap | src/draw/Drawing.cpp:108-117 | a point lands past the left and top margins, and a point inside the drawing space lands before the right and bottom margins |
| Draw.CalcRegionOnBitmap | src/draw/Drawing.cpp:119-124 | a region inside the drawing space starts inside the margins and ends at most one pixel past them |
| Draw.RoundedSum | src/draw/Drawing.cpp:119-124 | two rounded shares of one extent add up to at most one pixel more than the extent |
| Draw.CalcWidth | src/draw/Drawing.cpp:135-137 | a share within scale is at most the width, and scale gives the whole width |
| Draw.CalcHeight | src/draw/Drawing.cpp:139-141 | a share within scale is at most the height, and scale gives the whole height |
| Draw.PlusPoint | src/draw/Drawing.cpp:143-149 | keeps the bitmap and the area, and moves the point right and down, staying inside the area for a point within scale |
| Draw.PlusArea | src/draw/Drawing.cpp:151-157 | keeps the bitmap and the point, and resizes within the current area for a size within scale |
| Draw.PlusIdentities | src/draw/Drawing.cpp:143-157 | moving by the origin, or resizing to the whole drawing space, changes nothing |
| Draw.DrawingAttributes.constructor | src/draw/Drawing.cpp:43-45 | the default attributes are all zero |
| Draw.DrawingAttributes.FromAttr | src/draw/Drawing.cpp:47-49 | stores the attributes verbatim |
| Draw.DrawingAttributes.SetBitmap | src/draw/Drawing.cpp:64-66 | operator<<(bitmap) changes only the bitmap |
| Draw.DrawingAttributes.SetRegion | src/draw/Drawing.cpp:68-70 | operator<<(region) changes only the region |
| Draw.DrawingAttributes.SetPoint | src/draw/Drawing.cpp:72-74 | operator<<(point) changes only the point |
| Draw.DrawingAttributes.SetArea | src/draw/Drawing.cpp:76-78 | operator<<(area) changes only the area |
| Draw.DrawingAttributes.Set | src/draw/Drawing.cpp:128-133 | set(b, p, d) sets bitmap, point and area at once |
| Draw.WithFlag | src/draw/Drawing.cpp:240-246 | after set_flag(f, v), flag f reads v |
| Draw.WithFlagKeepsOthers | src/draw/Drawing.cpp:240-246 | set_flag(f, v) leaves every other bit as it was |
| Draw.Drawing.constructor | src/draw/Drawing.cpp:231-234 | a new Drawing has every flag clear |
| Draw.Drawing.SetFlag | src/draw/Drawing.cpp:236-246 | sets or clears bit f, and flag(f) reads back the value set |
| Draw.CheckerboardPatterns | src/draw/Drawing.cpp:255-273 | the odd pattern is always the complement of the even one, and any height other than 2, 4 or 8 gets 0xAAAAAAAA/0x55555555 |
| Draw.CheckerPeriod | src/draw/Drawing.cpp:255-273 | for heights 2, 4 and 8 the even pattern repeats every 2h bits and is set in exactly the low h bits of each period |
| Sgfx.Span | include/sgfx/Region.hpp:44-48 | the area between two corners, both included, has the given bottom-right corner as its last pixel |
| Sgfx.SpanOfBottomRight | include/sgfx/Region.hpp:44-48 | the area between a region's point and its last pixel is the region's own area |
| Sgfx.Region.constructor | include/sgfx/Region.hpp:21-23 | the default region is all zero and not valid |
| Sgfx.Region.FromValue | include/sgfx/Region.hpp:30-32 | stores the sg_region_t verbatim |
| Sgfx.Region.FromPointArea | include/sgfx/Region.hpp:34-37 | stores the point and the area verbatim |
| Sgfx.Region.ValidCoversPixels | include/sgfx/Region.hpp:25-27 | is_valid() holds exactly when the region contains a pixel, and then it contains its top-left pixel |
| Sgfx.Region.Center | include/sgfx/Region.hpp:39-42 | the centre is not left of or above the point, and lies inside a valid region |
| Sgfx.Region.SetRegion | include/sgfx/Region.hpp:44-48 | the point is the top-left corner and the area spans to the bottom-right corner, which is recovered as the last pixel |
| Sgfx.Region.SetPoint | include/sgfx/Region.hpp:50 | changes only the point |
| Sgfx.Region.SetArea | include/sgfx/Region.hpp:51 | changes only the area |
| Sgfx.Region.SetDim | include/sgfx/Region.hpp:52 | changes only the area |
| Sgfx.Region.InsertPoint | include/sgfx/Region.hpp:62-65 | operator<<(Point) changes only the point |
| Sgfx.Region.InsertArea | include/sgfx/Region.hpp:67-70 | operator<<(Area) changes only the area |
| Vector.Line | src/sgfx/Vector.cpp:55-62 | an enabled line primitive holding the two points and nothing else |
| Vector.QuadraticBezier | src/sgfx/Vector.cpp:75-83 | an enabled quadratic Bezier holding the three points |
| Vector.CubicBezier | src/sgfx/Vector.cpp:64-73 | an enabled cubic Bezier holding the four points |
| Vector.Arc | src/sgfx/Vector.cpp:98-109 | an enabled arc holding the centre, radii, start, stop and rotation |
| Vector.Circle | src/sgfx/Vector.cpp:86-96 | circle(p, r) is the arc at p with both radii r, start 0, stop SG_TRIG_POINTS and rotation 0 |
| Vector.Fill | src/sgfx/Vector.cpp:111-117 | an enabled fill primitive holding the point |
| Vector.BuildersCoverWellFormed | src/sgfx/Vector.cpp:55-117 | every enabled primitive whose type names its shape is what that kind's builder makes from the same fields |
| Vector.CenterShift | src/sgfx/Vector.cpp:35-42 | the shift set_bitmap_center computes, (dim + 2t) / 4, is half the bitmap extent less one pen thickness |
| Vector.VectorMap.constructor | src/sgfx/Vector.cpp:31-33 | a new map is centred on the bitmap as set_bitmap_center does it |
| Vector.VectorMap.SetBitmapCenter | src/sgfx/Vector.cpp:35-42 | the map spans twice the bitmap less a pen on each side, is shifted to the bitmap's centre, and keeps the rotation |
| Vector.VectorMap.SetDim | src/sgfx/Vector.cpp:10-13 | changes only the dimension |
| Vector.VectorMap.SetDimSizes | src/sgfx/Vector.cpp:20-23 | changes only the dimension |
| Vector.VectorMap.SetShift | src/sgfx/Vector.cpp:15-18 | changes only the shift |
| Vector.VectorMap.SetShiftCoordinates | src/sgfx/Vector.cpp:25-28 | changes only the shift |
| Vector.VectorMap.SetArea | src/sgfx/Vector.cpp:44-48 | sets dimension, shift and rotation at once |
| Vector.Canvas.Draw | src/sgfx/Vector.cpp:51-53 | draws exactly one icon with the given map, after those drawn before |
| Vector.Canvas.DrawRemove | src/sgfx/Vector.cpp:149-164 | draws one icon whose total is its 2 filled primitives (lines), none of them fills |
| Vector.Canvas.DrawOk | src/sgfx/Vector.cpp:166-180 | one icon of exactly its 2 filled primitives (lines) |
| Vector.Canvas.DrawBars | src/sgfx/Vector.cpp:182-197 | one icon of exactly its 3 filled primitives (lines) |
| Vector.Canvas.DrawCircle | src/sgfx/Vector.cpp:199-211 | one icon of exactly its 1 filled primitive (an arc) |
| Vector.Canvas.DrawCircleFill | src/sgfx/Vector.cpp:213-226 | one icon of exactly its 2 filled primitives (arc, fill) |
| Vector.Canvas.DrawToggleOff | src/sgfx/Vector.cpp:228-245 | one icon of exactly its 5 filled primitives, in kind order |
| Vector.Canvas.DrawToggleOn | src/sgfx/Vector.cpp:247-265 | one icon of exactly its 6 filled primitives, in kind order |
| Vector.Canvas.DrawPower | src/sgfx/Vector.cpp:267-281 | one icon of exactly its 2 filled primitives (line, arc) |
| Vector.Canvas.DrawChevron | src/sgfx/Vector.cpp:283-297 | one icon of exactly its 2 filled primitives (lines) |
| Vector.Canvas.DrawArrow | src/sgfx/Vector.cpp:299-314 | one icon of exactly its 3 filled primitives (lines) |
| Vector.Canvas.DrawZoom | src/sgfx/Vector.cpp:316-330 | one icon of exactly its 2 filled primitives (arc, line) |
| Vector.Canvas.DrawReset | src/sgfx/Vector.cpp:332-347 | one icon of exactly its 3 filled primitives, in kind order |
| Vector.Canvas.DrawLightning | src/sgfx/Vector.cpp:349-364 | one icon of exactly its 3 filled primitives (lines) |
| Vector.Canvas.DrawPlay | src/sgfx/Vector.cpp:366-382 | one icon of exactly its 4 filled primitives, in kind order |
| Vector.Canvas.DrawPause | src/sgfx/Vector.cpp:385-399 | one icon of exactly its 2 filled primitives (lines) |
| Vector.Canvas.DrawButtonBar | src/sgfx/Vector.cpp:401-420 | one icon of exactly its 7 filled primitives, in kind order |
| Vector.Canvas.DrawMic | src/sgfx/Vector.cpp:422-444 | one icon of exactly its 8 filled primitives, in kind order |
| Vector.Canvas.DrawClock | src/sgfx/Vector.cpp:446-463 | one icon of exactly its 3 filled primitives, in kind order |
| Vector.Canvas.DrawHeart | src/sgfx/Vector.cpp:465-484 | one icon of exactly its 5 filled primitives, in kind order |
| Vector.Canvas.DrawPlot | src/sgfx/Vector.cpp:486-506 | one icon of exactly its 6 filled primitives, in kind order |
| Vector.Canvas.DrawBike | src/sgfx/Vector.cpp:508-532 | one icon of exactly its 11 filled primitives, in kind order |
| Vector.Canvas.DrawMountain | src/sgfx/Vector.cpp:534-553 | one icon of exactly its 6 filled primitives, in kind order |
| Vector.Canvas.DrawCompass | src/sgfx/Vector.cpp:555-575 | one icon of exactly its 6 filled primitives, in kind order |
| Vector.Canvas.DrawCompassOuter | src/sgfx/Vector.cpp:577-600 | one icon of exactly its 9 filled primitives, in kind order |
| Vector.Canvas.DrawPanel | src/sgfx/Vector.cpp:602-623 | one icon of exactly its 8 filled primitives, in kind order |
| Vector.Canvas.DrawPanelFill | src/sgfx/Vector.cpp:625-648 | one icon of exactly its 9 filled primitives, in kind order |
| Vector.Canvas.DrawSun | src/sgfx/Vector.cpp:650-673 | one icon of exactly its 9 filled primitives, in kind order |
| Vector.Canvas.DrawBattery | src/sgfx/Vector.cpp:675-696 | one icon of exactly its 7 filled primitives, in kind order |
| Vector.Canvas.DrawArrowhead | src/sgfx/Vector.cpp:698-716 | one icon of exactly its 4 filled primitives, in kind order |
| Vector.Canvas.DrawDot | src/sgfx/Vector.cpp:718-732 | one icon of exactly its 1 filled primitive |
| Vector.Canvas.DrawDash | src/sgfx/Vector.cpp:734-749 | one icon of exactly its 1 filled primitive |
| Vector.Canvas.DrawMessage | src/sgfx/Vector.cpp:751-771 | one icon of exactly its 6 filled primitives, in kind order |
| Vector.Canvas.AlphaGlyphsAToF | src/sgfx/Vector.cpp:780-818 | the glyphs A to F rewrite the six-slot table and leave the total of F; nothing is drawn |
| Vector.Canvas.AlphaGlyphsGToL | src/sgfx/Vector.cpp:819-855 | the glyphs G to L rewrite the six-slot table and leave the total of L; nothing is drawn |
| Vector.Canvas.AlphaGlyphsMToR | src/sgfx/Vector.cpp:856-911 | the glyphs M to R rewrite the six-slot table and leave the total of R; nothing is drawn |
| Vector.Canvas.DrawAlpha | src/sgfx/Vector.cpp:773-919 | draw_ALPHA draws exactly one icon, the S glyph of two arcs, and returns before T to Z |
| Message.Message.constructor | src/var/Message.cpp:12-15 | a new message is in INIT with a cleared buffer of the given capacity |
| Message.Message.Cleared | src/var/Message.cpp:12-15 | the cleared buffer is n zero bytes |
| Message.Message.Create | src/var/Message.cpp:19-30 | returns the image function's result; on success the message is in CREATE holding the image, on failure back in INIT with a cleared buffer |
| Message.Message.Edit | src/var/Message.cpp:32-42 | 0 and nothing done when already editing; otherwise the open's result, entering EDIT only if the open succeeds |
| Message.Message.Read | src/var/Message.cpp:44-54 | 0 and nothing done when already reading; otherwise the open's result, entering READ only if the open succeeds |
| Message.Message.CalcSize | src/var/Message.cpp:58-68 | -1 as a u32 unless in READ with a successful seek; then offset + size when that fits in a u32 |
| Message.Message.RecvData | src/var/Message.cpp:97-114 | reads until nbytes have arrived (returns nbytes) or the failures of the whole call reach timeout (returns -1), stopping at the first read where either holds |
| Message.Message.SendData | src/var/Message.cpp:166-184 | writes until nbytes have gone out (returns nbytes) or timeout failures in a row (returns -1), the count starting again after each success |
| Message.Message.RecvByte | src/var/Message.cpp:97-114 | recv_data(&c, 1) succeeds exactly when it neither gives up nor stalls; it then returns the first byte delivered, and its outcome and the replies it used are those of the one-byte scan RecvOne |
| Message.RecvOneFromStops | src/var/Message.cpp:97-114 | where recv_data with nbytes 1 stops, the one-byte scan gives up at the same reply or yields the first byte delivered |
| Message.RecvOneFromRunsOut | src/var/Message.cpp:97-114 | where recv_data with nbytes 1 never stops, the one-byte scan runs out of replies |
| Message.StreamStep | src/var/Message.cpp:116-133 | after the first m bytes of the byte stream, the next one-byte read yields byte m if the stream goes on and yields nothing where it ends |
| Message.Message.RecvStart | src/var/Message.cpp:116-133 | the bytes read are a prefix of the byte stream the script yields one read at a time; true at the first prefix whose match index reaches 4, which ends with the start word, having used exactly the replies of those reads; false only when the stream ends first (a read gave up or the script ran out) with the index below 4 |
| Message.Message.RecvStartIntended | src/var/Message.cpp:116-133 | the intended framing over the same byte stream: true at the first prefix that ends with the start word, wherever it begins; false only when the stream ends with no start word in it |
| Message.StartBytes | src/var/Message.cpp:125 | the start word on the wire is four bytes, least significant first |
| Message.SyncIndex | src/var/Message.cpp:121-130 | the match index never exceeds 4 |
| Message.SyncIndexCountsMatchedSuffix | src/var/Message.cpp:121-130 | until the word is complete, the match index counts the last bytes that equal the start of the word |
| Message.SyncCompleteEndsWithStart | src/var/Message.cpp:121-130 | when the match index first reaches 4, the last four bytes read are the start word |
| Message.SyncMissesWordAfterFalseStart | src/var/Message.cpp:121-130 | on s0 s0 s1 s2 s3 with s0 != s1 the start word has arrived yet the match index is below 4 |
| Message.TrailingFailuresAreLast | src/var/Message.cpp:166-184 | the failure count send_data keeps is the number of failed writes at the end of the script so far |
| Message.SendGivesUpAfterConsecutiveFailures | src/var/Message.cpp:166-184 | send_data gives up only after timeout failed writes in a row, preceded by a successful write or the start of the call |
| Message.FailureCountersDiffer | src/var/Message.cpp:97-184 | the failure pattern fail, success, fail makes recv_data give up at timeout 2 while send_data carries on |
| Aio.TimespecOf | include/sys/Aio.hpp:89-92 | the timespec describes the same duration, its nanoseconds are whole microseconds below one second, and a non-negative timeout gives non-negative fields with seconds = t / 10^6 |
| Aio.SuspendList | include/sys/Aio.hpp:89-98 | passes the list and count through, with a null timeout exactly when the timeout is 0, and otherwise the same duration as the timeout |
| Aio.Aio.constructor | include/sys/Aio.hpp:65 | the whole control block is zeroed |
| Aio.Aio.WithBuffer | include/sys/Aio.hpp:74-79 | stores buffer, length and offset, and turns notification off |
| Aio.Aio.Suspend | include/sys/Aio.hpp:106-109 | a one-entry list holding exactly this control block, with the static suspend's timeout |
| Aio.Aio.SetBuf | include/sys/Aio.hpp:120-123 | changes only the buffer and the length |
| Aio.Aio.SetBufData | include/sys/Aio.hpp:134 | sets the buffer and length to the data object's buffer and capacity, nothing else |
| Aio.Aio.SetOffset | include/sys/Aio.hpp:143 | changes only the offset |
| Aio.Aio.SetSignal | include/sys/Aio.hpp:164-172 | a non-negative number asks for that signal with that value; a negative one turns notification off and keeps the stored number and value |

## Left out

- The `Tokenizer` that splits a version on "." is not part of this model. It is modelled as a split that keeps empty tokens.
- `atoi` and `to_integer` are modelled as reading the leading decimal digits. Signs and whitespace are not read.
- Version.VersionString.ToBcd: the source's `|=` is written as `+`. The three bytes occupy disjoint bits, so the result is the same.
- Version.VersionString.SetU32: 32-bit wrap-around is excluded by its precondition.
- AssetLists.Assets.Initialize: the sort of the font list is a parameter. The model states that the result is a permutation of the list sorted by point size, not the order among fonts of equal point size.
- `File`, `Dir` and `FontInfo` are represented by what they return: directory listings, suffixes, font metadata and icon names.
- `AppfsInfo::is_valid` is modelled as an `Option`: `None` is the invalid info.
- `LINK_NAME_MAX` truncation of names is not modelled.
- The progress callback of `Appfs::create` is not modelled.
- `APPFS_PAGE_SIZE` and `sizeof(appfs_file_t)` are parameters.
- Floating point is not modelled: `ConstString::to_float` and `JsonPrinter::append_float`.
- Ring: u32 wrap-around of `head + pos` in `at` is not modelled.
- Ring: a ring of `count == 0` is excluded, because it writes into a zero-size buffer.
- Ring: placement new, element destructors and the destructor's loop are not modelled. Elements are plain values.
- Drawing: negative coordinates in `calc_point_on_bitmap` and `operator+` are excluded by preconditions.
- Drawing: the widths of `drawing_size_t` and `sg_size_t` are not modelled.
- Drawing: `calculate_square*`, `width`/`height`, `draw_rectangle`, `draw_pattern`, `draw`, `draw_to_scale` and the scratch bitmap are left out. They call the graphics API.
- Sgfx.Region.SetRegion: corners with `bottom_right < top_left - 1` are excluded by the precondition. In the source they would make the unsigned size wrap.
- Vector: `show` and `printf` are left out, as is the graphics API's `vector_draw_icon`, which is recorded rather than performed.
- Vector: `SG_MAX`, `SG_MIN` and `SG_TRIG_POINTS` are parameters.
- Vector: a primitive's type is its kind plus the enable flag, not the numeric encoding, and the union layout of `sg_vector_primitive_t` is not modelled.
- Vector: the coordinate overloads of the builders are taken to build `Point`s.
- Vector: the widths of `sg_int_t` are not modelled.
- Vector.VectorMap.SetBitmapCenter and the VectorMap constructor require the bitmap to be at least two pen thicknesses wide and high. Below that the source's arithmetic goes negative, and the model does not state its wrap-around.
- Vector: the T–Z code of `draw_ALPHA`, which is unreachable, is not modelled.
- Vector.Canvas.DrawRemove and the other `Draw*` icon methods state the number, order and kinds of the primitives drawn, but not their coordinates.
- Message: `recv`, `send`, `save` and `load` are not modelled.
- Message: `close()` is not modelled. The son image functions are represented by their return values, which are parameters.
- Message: `timeout()` and `MESSAGE_START` are parameters.
- Message: the request size passed to the device in a read is not modelled. A reply longer than requested is taken as it is.
- Message: `Timer::wait_msec` between retries is left out.
- Message.Message.RecvData: the device is a finite script. Where the source would keep calling the device, the model reports the call as stalled.
- Message.Message.CalcSize: the int addition before the conversion to u32 is taken without overflow.
- Aio: `aio_suspend`, `aio_error`, `aio_return`, `is_done` and `is_busy` belong to the operating system and are left out.
- Aio: pointers are modelled as addresses.
- Aio: the values of `SIGEV_NONE` and `SIGEV_SIGNAL` are those of newlib's signal header.
- Aio: `size_t` nbytes is an integer.
- Aio.Aio.WithBuffer: the signal number and value, which the source leaves uninitialised, keep whatever the object held.

## Findings

| source | as written | input that shows it | evidently intended | confidence | as-written member | corrected member |
|---|---|---|---|---|---|---|
| include/var/Ring.hpp:82-93 | on an empty ring (`head == tail`, not full) `count_ready()` falls through to `count - (tail - head)` and returns `count` | a fresh `Ring(4)`: no item pushed, `count_ready()` is 4 | 0 items ready on an empty ring | not executed | RingBuffer.CountReadyOnEmptyRing | RingBuffer.Ring.CountReady |
| include/var/Ring.hpp:117-126 | `at(pos)` reads slot `(head + pos) % count`, which is the pos-th oldest item only when the ring is full | a two-slot ring after push 1, push 2, pop: the only item is 2, `at(0)` reads 1 | position 0 is the oldest valid item, as the comment says | not executed | RingBuffer.AtZeroIsNotOldest | RingBuffer.Ring.AtOldest |
| src/sys/Appfs.cpp:213-217 | a failed `stat` leaves the previous entry's mode in the buffer, and the deletion test reads it | `cleanup(false)` on entries "app" (executable) then "log" (stat fails, not executable): "log" is unlinked | an entry whose stat failed is not judged by another entry's mode | not executed | AppFs.StaleStatDeletes | AppFs.UnlinksIntendedExactly |
| src/var/Message.cpp:121-130 | a byte that breaks a partial match resets the index to 0 without being compared with the first byte of the word | start bytes s0 s1 s2 s3 with s0 != s1, bytes received s0 s0 s1 s2 s3: the word has arrived, the match index is below 4 | synchronise on the first complete start word | not executed | Message.SyncMissesWordAfterFalseStart | Message.Message.RecvStartIntended |
