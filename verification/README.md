# FaithConnect notification dispatch and icon geometry, in Dafny

This project models two parts of FaithConnect.

The first is the Firebase Cloud Functions that deliver push notifications
(functions/index.js):

- `sendPushNotification` runs when a `push_notifications` record is created.
  It checks the record's fields and looks up the recipient's FCM tokens. It
  sends one message per token, removes the tokens that FCM reports as invalid,
  and writes a status back to the record.
- `getDefaultBody` picks the fallback text for each notification type.
- `sendTopicNotification` is the callable that broadcasts an announcement to a
  topic.

The second is the arithmetic of the three Python scripts that draw the app
icons:

- the per-row colour gradients;
- the ring-by-ring radial shading of the premium logo;
- the infinity mark, the star, the sparkles and the placement of the pasted logo;
- the "F C" monogram and its dots in two variants.

Firestore, FCM and Pillow are not modelled as code. Their observable answers
become inputs instead:

- the user lookup is a `UserLookup`;
- the n-th FCM send's answer is `respond(n)`;
- a failed token removal is `removalError`;
- a drawing is the boxes and radii of each shape that the script hands to
  Pillow, with the colours and widths of the rings, the C stroke, the cover and
  the fixed icon's ink. The other fill, outline and width arguments are left
  out (see below).

Files:

- wrappers.dfy: `Option`.
- js_values.dfy: JavaScript truthiness and `v || fallback` on record fields.
- push_payload.dfy: `getDefaultBody` and the FCM message built for one record.
- push_dispatch.dfy: the `sendPushNotification` handler, its send loop and the
  status record.
- topic_broadcast.dfy: `sendTopicNotification`.
- gradient.dfy: colours, the integer form of the row gradient, and its
  agreement with Python's `int` on the exact value.
- geometry.dfy: boxes, circles and `int(size * f)`.
- premium_logo.dfy: faith_connect/generate_new_logo.py.
- faith_icon.dfy: generate_icon.py.
- fixed_icon.dfy: generate_icon_fixed.py.

The icon scripts compute `int(a + (b - a) * y / size)`. Python's `int`
truncates toward zero. These values are never negative, so truncation is the
floor, and the model computes it as `(a * size + (b - a) * y) / size`. Lemmas
prove this equal to a reference definition of Python's `int` applied to the
exact rational value.

The scripts compute in floating point and the model uses exact values. At the
scripts' size of 1024 the two agree:

- `y / size` divides by a power of two, so every gradient quotient is exact.
- `int(size * f)` agrees with the exact product. The products with 0.25 and 0.5
  are exact, because those are binary fractions. Every other proportion used
  leaves a fractional part at least 0.08 from an integer, far above the rounding error.
- The ring ratio `i / main_radius` divides by 358 and is not exact in floating
  point. Truncation still agrees because of how far the exact channel value
  lies from an integer. That value is an integer only at `i = main_radius`,
  where the ratio is exactly 1. At every other ring radius it is at least
  1/179 away from an integer.

## Model

| member | source | states |
|---|---|---|
| JsValues.OrElse | functions/index.js:71-76 | `v \|\| fallback` yields the field when it is a non-empty string and the fallback otherwise, so a non-empty fallback never yields an empty text |
| PushPayload.DefaultBody | functions/index.js:184-201 | the text is never empty, and it is the generic "You have a new notification" exactly when the type is not one of the six listed strings (strict `switch` equality, so an absent type also gets the generic text) |
| PushPayload.DefaultBodyRoundTrip | functions/index.js:184-201 | an independent inverse maps each known type's text back to that type and maps the generic text to no type |
| PushPayload.DefaultBodyDistinguishesTypes | functions/index.js:184-201 | two known types get the same text only if they are the same type |
| PushPayload.BuildMessage | functions/index.js:68-108 | the FCM notification and the APNS alert carry the same title and the same body; the body is the record's body when present and otherwise the type's default; the data defaults are "general" and ""; the image is attached to both notification parts exactly when the record has one |
| PushDispatch.TokensOf | functions/index.js:54-57 | `userData.fcmTokens \|\| []` uses a present list as is; the handler sees no tokens exactly when the field is missing or the list is empty |
| PushDispatch.Results | functions/index.js:111-134 | `sendResults` has exactly one entry per token; ResultsPositions states what each entry holds |
| PushDispatch.InvalidTokens | functions/index.js:136-141 | `invalidTokens` never has more entries than the token list; InvalidTokensExactly states which tokens it holds |
| PushDispatch.CountSuccesses | functions/index.js:157 | the success count is at most the number of results, and zero exactly when no send succeeded |
| PushDispatch.ResultsPositions | functions/index.js:114-134 | entry i of `sendResults` belongs to the i-th token, succeeded exactly when FCM accepted the i-th send, and on failure carries FCM's error message |
| PushDispatch.InvalidTokensFromList | functions/index.js:136-141 | `invalidTokens` holds only tokens from the list, each at most as often as it occurs there |
| PushDispatch.InvalidTokensExactly | functions/index.js:136-141 | a token is collected for removal exactly when one of its sends failed with `messaging/invalid-registration-token` or `messaging/registration-token-not-registered` |
| PushDispatch.SendToEach | functions/index.js:111-143 | the loop sends once per token in list order and leaves exactly the results and invalid tokens of the whole list |
| PushDispatch.SendPushNotification | functions/index.js:36-178 | a missing userId or title, an unknown user or an empty token list writes `{sent: false, error}` and sends nothing; a failed lookup or failed token removal lands in the catch-all; otherwise the handler sends once per token, removes exactly the invalid tokens, and records success count, token count and removed count, with removed + successful never exceeding the token count |
| PushDispatch.DeliveredTokenKept | functions/index.js:123-141 | when tokens are distinct, a token whose send FCM accepted is never removed from the profile |
| PushDispatch.CountsWithinTotal | functions/index.js:157-164 | `successCount + invalidTokensRemoved <= totalTokens`, since no send is both a success and an invalid token |
| PushDispatch.SuccessCountIsAcceptedSends | functions/index.js:157-161 | `successCount` equals the number of send positions FCM accepted |
| TopicBroadcast.SendTopicNotification | functions/index.js:249-295 | an unauthenticated caller gets `unauthenticated`, a missing topic or title gets `invalid-argument`, and both send nothing; a message goes out exactly when both checks pass, with defaults "You have a new announcement" and "announcement"; a failed send becomes `internal` with FCM's message; no other error code is thrown |
| TopicBroadcast.BroadcastMatchesPushStyling | functions/index.js:269-286 | a broadcast uses the same click action, Android icon, colour and channel as a per-user push, while its fallback body differs from the per-user one |
| Gradient.Channel | generate_icon.py:31-33 | the integer form of one gradient channel runs exactly from the start value at row 0 to the end value at row `size` |
| Gradient.ChannelWithin | generate_icon.py:29-34 | every row's channel value lies between the start and end values |
| Gradient.ChannelMonotone | generate_icon.py:29-34 | a channel moves monotonically from its start value toward its end value as the row grows |
| Gradient.ChannelLastRow | generate_icon.py:29-34 | when the endpoints differ by at most the row count, the last row is within 1 of the end value |
| Gradient.ChannelMatchesPython | generate_icon.py:31-33 | the integer formula equals Python's `int` of the exact value of `start + (end - start) * y / size`, and of the spelling `start - (start - end) * y / size` |
| Gradient.Rows | generate_icon_fixed.py:17-22 | one colour per row; row 0 is the top colour; every row is within the endpoint colours; every channel moves monotonically from top to bottom |
| Gradient.RowsMatchPython | generate_icon.py:29-34 | every row colour equals Python's truncated value of the exact channel values |
| Gradient.RowsLastRow | generate_icon.py:29-34 | when no channel changes by more than the row count, the last row is within 1 of the bottom colour |
| Geometry.CircleBox | generate_icon.py:76-78 | the bounding box of a circle is centred on the circle's centre and is twice the radius wide and high |
| Geometry.Scale | generate_icon.py:41-45 | `int(size * f)` is the largest whole number of pixels not exceeding `size * f` |
| Geometry.ScaleMatchesPython | generate_icon.py:41-45 | `(size * permille) / 1000` is Python's `int` of the exact value of `size * f`, and lies within 1 below it |
| PremiumLogo.BackgroundGradient | faith_connect/generate_new_logo.py:29-34 | the 1024-row background starts at #F5F3FF and every channel falls toward #EDE9FE without leaving the endpoint range |
| PremiumLogo.GlowRings | faith_connect/generate_new_logo.py:37-45 | three glow rings of #9D8BF5, each 2 pixels wide, at radius `int(0.45 * size) + 10 * i` with alpha 20, 15 and 10, so the glow fades as it widens |
| PremiumLogo.GlowInsideCanvas | faith_connect/generate_new_logo.py:37-45 | from 390 pixels up, every glow ring's box lies on the canvas |
| PremiumLogo.GlowLeavesCanvasAt389 | faith_connect/generate_new_logo.py:37-45 | the 390 bound is tight: at 389 pixels the outermost glow ring, radius 195 about centre 194, leaves the canvas |
| PremiumLogo.RingRadii | faith_connect/generate_new_logo.py:49 | `range(top, 0, -2)` gives `(top + 1) / 2` radii `top - 2k`, all positive |
| PremiumLogo.RingColorMatchesPython | faith_connect/generate_new_logo.py:51-54 | the ring colour as a gradient step equals Python's `int(157 - 34 * (1 - i / R))` and the two other channels |
| PremiumLogo.RingChannelMatchesPython | faith_connect/generate_new_logo.py:51-54 | one channel of `int(a - (a - b) * (1 - i / R))` is the gradient value at step `R - i` of `R` |
| PremiumLogo.RadialRings | faith_connect/generate_new_logo.py:48-59 | one ring per radius `R, R - 2, ...` with `R = int(0.35 * size)`; the outermost ring is #9D8BF5; every ring stays between #9D8BF5 and #7B6FE8 and darkens toward the centre |
| PremiumLogo.RadialRingsMatchPython | faith_connect/generate_new_logo.py:48-59 | each ring's colour is Python's colour for that ring's radius |
| PremiumLogo.ForegroundRingsMatchLogo | faith_connect/generate_new_logo.py:238-248 | the adaptive-icon foreground draws the logo's rings with the same radii, widths and colours, with alpha 220 in place of 200 |
| PremiumLogo.RadialRingsInsideCanvas | faith_connect/generate_new_logo.py:48-59 | every radial ring's box lies on the canvas |
| PremiumLogo.InfinityMark | faith_connect/generate_new_logo.py:76-102 | the two loops are circles of radius `infinity_size // 2` either side of the centre; loops and bar are mirror images about the centre column, the loops have equal size, and all lie on the canvas |
| PremiumLogo.InfinityFits | faith_connect/generate_new_logo.py:76-102 | the loops reach at most `infinity_size` from the centre, the bar is no thicker than a loop, and loops and bar fit on the canvas at every size |
| PremiumLogo.StarPolygon | faith_connect/generate_new_logo.py:156-164 | `2 * points` vertices in angle-step order; the first is an outer point straight up; neighbouring vertices take one outer and one inner radius; the vertex mirrored across the vertical axis (step `2 * points - i`) has the same radius, so the star is symmetric |
| PremiumLogo.LogoStar | faith_connect/generate_new_logo.py:150-154 | the logo's star has 12 vertices, outer radius `symbol_size // 2` and inner radius half of that |
| PremiumLogo.LogoStarShape | faith_connect/generate_new_logo.py:150-165 | the logo's star has 12 vertices alternating between radius 40 and 20 |
| PremiumLogo.Sparkles | faith_connect/generate_new_logo.py:192-204 | four dots of radius `int(0.015 * size)`, one on each diagonal corner `(cx -/+ d, cy -/+ d)`, no corner twice |
| PremiumLogo.SparklesPlacement | faith_connect/generate_new_logo.py:192-204 | every sparkle is `d` from the centre on both axes and lies on the canvas |
| PremiumLogo.AppIconGradient | faith_connect/generate_new_logo.py:214-220 | the app icon background starts at #9D8BF5 and darkens toward #7B6FE8 without leaving the endpoint range |
| PremiumLogo.LogoPlacement | faith_connect/generate_new_logo.py:224-225 | the pasted logo lies on the canvas; the margin after it is at least the margin before it and at most 2 pixels wider |
| PremiumLogo.LogoPlacementAt1024 | faith_connect/generate_new_logo.py:224-225 | at 1024 pixels the logo is resized to 870 pixels and pasted at offset 76 |
| FaithIcon.ThreeDots | generate_icon.py:104-110 | the middle dot sits on the centre column and the outer two mirror each other about it; neighbours are `step` apart; all three share a row and a radius |
| FaithIcon.MonogramLayout | generate_icon.py:37-89 | the three F bars share the left edge; the middle bar starts `f_height // 3` down and both horizontal bars are one stroke high; the C is a circle of radius `c_height // 2` whose right edge is `c_right`; the F's left edge and the C's right edge mirror each other about `cx`; the cover spans the ring's whole right stroke and is centred on the C's middle row |
| FaithIcon.CreateFaithIcon | generate_icon.py:18-123 | the gradient covers every row and its first row repaints the canvas colour unchanged; the halo and the bottom arc are centred on the middle column; the halo lies on the canvas |
| FaithIcon.FaithGradient | generate_icon.py:25-34 | the gradient starts at the canvas colour #6366F1; red and blue rise and green falls toward #8B5CF6, each within its endpoints |
| FaithIcon.CoverMatchesGradient | generate_icon.py:70-89 | the C's middle row is the canvas's middle row, and the hard-coded cover colour is exactly the gradient colour of that row |
| FaithIcon.MainLettersShareBox | generate_icon.py:40-81 | the F's stem and its top and middle bars lie inside the C's bounding box |
| FaithIcon.BottomArcLeavesCanvas | generate_icon.py:112-121 | the bottom arc's bounding circle starts above row 1024 and reaches below it, so the arc runs off the bottom of the canvas |
| FaithIcon.CreateForegroundIcon | generate_icon.py:125-184 | the canvas is fully transparent; the cover spans the C's right stroke around its middle row and paints the canvas colour, so the C's opening shows whatever lies behind the icon |
| FaithIcon.DotSpacing | generate_icon.py:101-110 | the main icon's dots are 102 pixels apart and the foreground's 81; in each icon the three dots share a row and a radius |
| FixedIcon.LetterLayout | generate_icon_fixed.py:24-77 | the truncated stroke and dot radius never exceed their exact fractions of `size`; the letter group and the dots are centred on the canvas |
| FixedIcon.Shapes | generate_icon_fixed.py:36-80 | the F is three rectangles and the dots three equal ellipses; the C is a 270-degree arc whose 90-degree opening is centred on 3 o'clock, as thick as the F's bars |
| FixedIcon.CreateIcon | generate_icon_fixed.py:9-82 | an opaque RGB canvas fully covered by a gradient that starts at #6366F1 and stays between the endpoints, with the shapes in white |
| FixedIcon.CreateForegroundIcon | generate_icon_fixed.py:84-144 | a fully transparent RGBA canvas with no gradient, carrying the main icon's letters and dots in the same opaque white, every one of them on the canvas |
| FixedIcon.FixedGradient | generate_icon_fixed.py:16-22 | the gradient starts at #6366F1 and every row's channels stay between #6366F1 and #8B5CF6 |
| FixedIcon.LettersCentredHorizontally | generate_icon_fixed.py:25-29 | the letter group has equal margins left and right and fits within the canvas |
| FixedIcon.LettersCentredVertically | generate_icon_fixed.py:26-30 | the letters span the rows from a quarter to three quarters of the canvas |
| FixedIcon.NoLetterOverlap | generate_icon_fixed.py:36-67 | every F bar ends before the C's box starts, with a positive gap between them |
| FixedIcon.DotsBelowLetters | generate_icon_fixed.py:69-80 | for every size, the dots' tops lie strictly below the bottoms of the F bars and of the C |
| FixedIcon.DotsSymmetricAndInside | generate_icon_fixed.py:69-80 | the dots are `0.15 * size` apart, symmetric about the middle column, on one row, and on the canvas |
| FixedIcon.ShapesInside | generate_icon_fixed.py:36-80 | every bar, arc and dot of the icon lies on the canvas |
| FixedIcon.ForegroundMatchesIcon | generate_icon_fixed.py:84-144 | the foreground draws exactly the icon's shapes in the same white; only the canvas and the gradient differ. Both builders share one shape list; that sharing is a modelling choice, read against the two script functions, which repeat the same formulas |

## Left out

- `cleanupOldNotifications` (functions/index.js:209-241) is left out. It deletes records older than seven days in one Firestore batch and has no decision logic beyond the query.
- MainActivity.kt is left out. It only overrides `getRenderMode` to return `RenderMode.texture`, which is framework configuration with nothing to state.
- Logging, timestamps (`sentAt`, `errorAt`), Firestore writes and FCM calls are left out. They appear only as the values the handler passes or receives.
- A failure of the status write itself (`snapshot.ref.update`) is left out. Only a failed user lookup or a failed token removal are modelled as reaching the catch-all.
- Record fields whose value is neither a string nor absent are left out (for example a numeric title or a non-array `fcmTokens`). JavaScript truthiness is modelled for strings and absent values only.
- A null `data` payload to `sendTopicNotification` is left out. It passes the `context.auth` check (functions/index.js:252) and then throws at the destructuring (functions/index.js:259), before the topic and title check.
- Pillow's rasterisation, LANCZOS resampling, fonts and PNG output are left out. A drawing is modelled as the boxes and radii handed to Pillow, plus the colours and widths listed at the top.
- The cosine and sine coordinates of the star's vertices are left out, and so are the two connection-line loops (generate_new_logo.py:167-189). A vertex is its radius and its angle step.
- The Om symbol, crescent, cross, inner circle and centre fill of the logo are left out. They are fixed-colour shapes with no arithmetic beyond `int(size * f)`.
- The saving, `pip` installation, printing and `main` of the scripts are left out.
- Geometry.Scale: `int(size * f)` is modelled on the exact product, without floating-point rounding. At 1024 the products with 0.25 and 0.5 are exact because those are binary fractions. Every other product is at least 0.08 from an integer, so rounding cannot change the truncation.
- FixedIcon.LetterLayout: the fractional layout uses exact reals, not IEEE doubles.
- PremiumLogo.GlowInsideCanvas is stated from 390 pixels up. Every size from 390 fits, and 389 does not (PremiumLogo.GlowLeavesCanvasAt389). Some smaller sizes fit as well, but the script always uses 1024.
- Colours and widths that only style a shape are left out, because no computation depends on them:
  - the halo's `(255, 255, 255, 100)` outline and `int(size * 0.008)` width (generate_icon.py:97-98);
  - the bottom arc's `start=0, end=180` angles, colour and `int(size * 0.015)` width (generate_icon.py:118-120). In Pillow those angles give the lower semicircle, so only the part of it above row 1024 shows, but the model keeps only the arc's box;
  - the gold outline and `infinity_thickness` width of the infinity loops (generate_new_logo.py:84-85, 93-94), and the bar's gold fill (line 101);
  - the fill colours of the letters, dots, star and sparkles.
- TopicBroadcast.SendTopicNotification takes only whether the caller is authenticated. The comment at functions/index.js:251 asks for an admin or leader, but the code tests only `context.auth` (line 252). So any signed-in user can broadcast, and the model shows that.
