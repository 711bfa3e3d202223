# WP Stepper — a Dafny model

WP Stepper is a WordPress multi-site plugin that answers an AJAX action with a user
count from a `WP_User_Query` (`get_user_count`, left out), scaled to an angle between 0 and 359 degrees, so
that a stepper-motor indicator can show it. The handler writes a body only when the
request passes an optional source-IP check and a shared-secret key check; the body
is `{"count":N}`, after which the script stops.

This project models the plugin's class `WP_Stepper` (`wp-stepper.php`):

- `php.dfy` (module `Php`): the decoded PHP values the stored settings can hold,
  and the language operations the plugin relies on: `empty()`, `intval()` and the
  `%d` conversion of `sprintf()`.
- `degrees.dfy` (module `DegreeMapper`): `convert_to_degrees`, following the
  plugin's steps (divide 359 by the maximum, multiply, floor, clamp above 359,
  round) in exact arithmetic, proved equal to `min(359, floor(count * 359 / max))`
  and proved bounded, saturating and monotone.
- `access.dfy` (module `AccessGate`): `check_ip` with its forwarded-for-first
  fallback, and the strict key comparison of `process_ajax`.
- `settings.dfy` (module `Settings`): the defaults merged under the decoded stored
  option, the lookups in the result, and the memo rule of `get_settings`.
- `stepper.dfy` (module `Stepper`): the outcome of a request, the JSON body, and
  the class `WpStepper`, whose one field `settings` is the memo and whose methods
  `GetSettings`, `CheckIp`, `ConvertToDegrees` and `ProcessAjax` follow the
  plugin's methods, each reading the settings through `GetSettings`.
- `wrappers.dfy` (module `Wrappers`): the `Option` type.

What the plugin takes from its environment is a parameter: the stored option as
`json_decode` returns it, the request's `key` parameter, its `X-Forwarded-For`
header and direct address, the IP validator behind `FILTER_VALIDATE_IP`, and the
user count.

The plugin's doc comments promise a value between 0 and 359
(wp-stepper.php:5-6 and 162). Three behaviours of the code are easy to misread:

- A maximum of 0 is a division by zero, but a negative maximum is not refused: it
  divides and, with no lower clamp, produces a negative angle
  (`NegativeMaxGivesNegativeAngle`).
- The IP check is skipped whenever the setting is `empty()` in PHP's sense, which
  includes the string `"0"`, not only null and `""`.
- The stored key is compared with `!==`, so the default null key admits exactly the
  requests that carry no key (`DefaultsAnswerKeylessRequests`), among those
  WordPress dispatches to the handler. A key sent as an array (`?key[]=x`) reaches
  the comparison as `false` and is refused.

## Model

| member | source | states |
|---|---|---|
| `Php.Truncate` | wp-stepper.php:171 | intval() of a float is the integer next to it toward zero |
| `Php.SkipWhitespace` | wp-stepper.php:171 | intval() of a string starts after the leading whitespace run: the rest is a suffix, all skipped characters are whitespace, the next one is not |
| `Php.LeadingDigits` | wp-stepper.php:171 | intval() of a string reads the longest prefix of decimal digits: a prefix, all digits, and maximal |
| `Php.NatToString` | wp-stepper.php:78 | %d writes at least one decimal digit, without a leading zero, and 1, 2 or 3 digits for numbers below 10, 100 and 1000 |
| `Php.DigitsValueOfNatToString` | wp-stepper.php:78 | the digits %d writes for a natural number denote that number |
| `Php.IntValOfIntToString` | wp-stepper.php:78 | intval() reads back exactly the integer, negative or not, that %d wrote |
| `DegreeMapper.Round` | wp-stepper.php:179 | round() gives the nearest integer, halves away from zero |
| `DegreeMapper.RoundOfInteger` | wp-stepper.php:179 | the final round() of the floored, clamped value changes nothing |
| `DegreeMapper.FloorDiv` | wp-stepper.php:173 | floor of a quotient for a divisor of either sign: q*b <= a < q*b + b for b > 0 and the mirrored bounds for b < 0 |
| `DegreeMapper.ToDegrees` | wp-stepper.php:168-180 | convert_to_degrees on the integer maximum fails with division by zero exactly when the maximum is 0 |
| `DegreeMapper.FloorOfQuotient` | wp-stepper.php:171-173 | floor of the exact quotient by a positive divisor is integer division |
| `DegreeMapper.ToDegreesFormula` | wp-stepper.php:171-179 | for every non-zero maximum the conversion is min(359, floor(count * 359 / max)) |
| `DegreeMapper.ToDegreesInRange` | wp-stepper.php:161-180 | for a positive maximum the angle lies in 0..359 |
| `DegreeMapper.ToDegreesClampsOnlyAboveLimit` | wp-stepper.php:173-177 | the angle is count * 359 / max when that is at most 359, and 359 otherwise |
| `DegreeMapper.ToDegreesIsProportional` | wp-stepper.php:171-173 | below the maximum the angle d satisfies d*max <= count*359 < (d+1)*max |
| `DegreeMapper.ToDegreesSaturates` | wp-stepper.php:171-177 | the angle is 359 if and only if the count is at least the maximum |
| `DegreeMapper.ToDegreesZero` | wp-stepper.php:171-173 | the angle is 0 if and only if count * 359 is below the maximum |
| `DegreeMapper.ZeroCountGivesZero` | wp-stepper.php:173 | a zero count gives angle 0 for every non-zero maximum, negative ones included |
| `DegreeMapper.FloorDivMonotone` | wp-stepper.php:173 | floor division by a positive divisor is monotone in the dividend |
| `DegreeMapper.ToDegreesMonotone` | wp-stepper.php:171-177 | for a fixed positive maximum a larger count never gives a smaller angle |
| `DegreeMapper.NegativeMaxGivesNegativeAngle` | wp-stepper.php:171-177 | with a negative maximum every positive count gives a negative angle: there is no lower clamp |
| `DegreeMapper.ToDegreesExamples` | wp-stepper.php:168-180 | counts 0, 50, 100, 1000 under maximum 100 give 0, 179, 359, 359; count 1 under -1 gives -359; maximum 0 is the division error |
| `AccessGate.IpAllowed` | wp-stepper.php:139-159 | an empty ip setting admits all; otherwise a usable forwarded-for address decides, the direct address only when it is not usable, neither usable rejects, and the chosen address must be identical to the setting |
| `AccessGate.IpAllowedIsSound` | wp-stepper.php:147-158 | an admitted request under a configured ip came from that valid address, through the header or the connection |
| `AccessGate.ForwardedForDecides` | wp-stepper.php:147-148 | a request naming the configured valid address in the client-supplied forwarded-for header is admitted whatever its direct address |
| `AccessGate.KeyAccepted` | wp-stepper.php:70 | the key gate passes if and only if the provided key, null when absent and false when not a scalar, is identical to the stored value; a null stored key admits only absent keys, a stored string only that string, a stored false only non-scalar keys, and a stored key of any other type nothing |
| `Settings.ParseArgs` | wp-stepper.php:108-128 | the merged settings hold the default keys and the stored ones, stored values win, missing keys take the defaults, and a decoded value that is not an array gives exactly the defaults |
| `Settings.Cached` | wp-stepper.php:107-131 | an empty field is filled from the decoded option, a filled field is returned unchanged, and the result is never empty |
| `Settings.CachedIsStable` | wp-stepper.php:107-131 | after the first call later calls return the first result, whatever the stored option has become |
| `Settings.MissingEntriesTakeDefaults` | wp-stepper.php:118-128 | with nothing stored for them, key and ip are null and the scale is 100 |
| `Settings.StoredDecimalMax` | wp-stepper.php:171 | a max stored as the text %d writes for n is read back as n |
| `Php.IsEmpty` | wp-stepper.php:142 | a definition without ensures: PHP's empty() holds of null, false, 0, 0.0, "", "0" and the empty array; used by `AccessGate.IpAllowed`, whose ensures carry its effect |
| `Php.LeadingInt` | wp-stepper.php:171 | a definition without ensures: intval() of a string reads whitespace, a sign and the leading digits; its parts are `Php.SkipWhitespace` and `Php.LeadingDigits`, and `Php.IntValOfIntToString` carries its round trip |
| `Php.IntVal` | wp-stepper.php:171 | a definition without ensures: intval() on each kind of decoded value; the properties are in `Php.IntValOfIntToString`, `Php.Truncate` and `Settings.StoredDecimalMax` |
| `Php.IntToString` | wp-stepper.php:78 | a definition without ensures: %d writes a minus sign for negatives, then `Php.NatToString`; the properties are in `Php.NatToString`, `Php.DigitsValueOfNatToString` and `Php.IntValOfIntToString` |
| `AccessGate.EmptyInput` | wp-stepper.php:148-154 | a definition without ensures: empty($ip) on what filter_input returned, null or false for `None`; used at both tests of lines 148 and 154, whose effect `AccessGate.IpAllowed` states |
| `AccessGate.Usable` | wp-stepper.php:147-154 | a definition without ensures: an address the check can use is present, valid and not empty(); the case split of `AccessGate.IpAllowed`'s ensures |
| `AccessGate.KeyValue` | wp-stepper.php:70 | a definition without ensures: filter_input(INPUT_GET, 'key') as a PHP value, null when absent, false when the parameter is an array, the string otherwise; `AccessGate.KeyAccepted` states the comparison through it |
| `Settings.Get` | wp-stepper.php:142 | a definition without ensures: $settings[$name], null for a missing entry; `Settings.MissingEntriesTakeDefaults` states what it gives on merged settings |
| `Settings.MaxScale` | wp-stepper.php:171 | a definition without ensures: intval($settings['max']); `Settings.MissingEntriesTakeDefaults` and `Settings.StoredDecimalMax` state its values |
| `Stepper.CountBody` | wp-stepper.php:77-78 | a definition without ensures: the sprintf('{"count":%d}') body; `Stepper.ReadCountOfCountBody` proves the angle reads back from it |
| `Stepper.Respond` | wp-stepper.php:63-81 | a definition without ensures: process_ajax on loaded settings; `Stepper.RespondOnlyWhenAdmitted`, `Stepper.RespondBody` and `Stepper.RespondZeroScale` carry its properties |
| `Stepper.ReadCountOfCountBody` | wp-stepper.php:76-80 | reading the angle back out of a written body gives that angle |
| `Stepper.RespondOnlyWhenAdmitted` | wp-stepper.php:63-72 | a request gets any outcome other than silence, the division included, if and only if it passes the IP check and the key gate |
| `Stepper.RespondBody` | wp-stepper.php:74-81 | under a positive scale an admitted request gets exactly {"count":N} with N the angle in 0..359, 11 to 13 characters long, from which the angle reads back |
| `Stepper.RespondZeroScale` | wp-stepper.php:171 | an admitted request under a scale that converts to 0 ends in the division error |
| `Stepper.DefaultsAnswerKeylessRequests` | wp-stepper.php:70 | under the default settings exactly the requests without a key get a body, the angle of the count against 100; a key given as any string, even the empty one, or as an array gets none |
| `Stepper.WpStepper.constructor` | wp-stepper.php:35 | a new object starts with an empty settings field |
| `Stepper.WpStepper.GetSettings` | wp-stepper.php:106-132 | get_settings moves the field to its cached value and returns it |
| `Stepper.WpStepper.CheckIp` | wp-stepper.php:139-159 | check_ip loads the settings and returns the IP check on the ip setting |
| `Stepper.WpStepper.ConvertToDegrees` | wp-stepper.php:168-180 | convert_to_degrees loads the settings and returns the conversion against intval of max |
| `Stepper.WpStepper.ProcessAjax` | wp-stepper.php:63-82 | process_ajax leaves the field at its cached value and ends with the outcome of the IP check, then the key gate, then the body or the division error |

## Left out

- `get_user_count` (a `WP_User_Query` with `DateTime`): the count is an input of the model.
- `show_settings` and `save_settings`: HTML rendering, `$_POST` handling and `update_site_option`.
- `get_instance`, `register_hooks`, the `is_main_site` bootstrap and the `WPINC` guard: WordPress hook dispatch and loading. This includes the login-dependent dispatch: `process_ajax` is hooked only on `wp_ajax_stepper` (wp-stepper.php:55), with no `wp_ajax_nopriv_stepper`, so WordPress runs it only for logged-in users, and the model takes every request as already dispatched. When the handler returns without writing (wp-stepper.php:65 and 71), WordPress's `admin-ajax.php` goes on to end the request with `wp_die('0')`; that trailing body is outside the model, so `NoResponse` means only that the handler itself writes nothing.
- `get_site_option` and `json_decode`: their combined result is the parameter `decoded`; a missing option decodes from `'{}'` to the empty array.
- `filter_input` with `FILTER_VALIDATE_IP`: modelled by `AccessGate.FilterIp`, which gives back a present, valid address as the same string and `None` for anything else, standing for both PHP's null and false; the validator itself is the parameter `isValidIp`.
- `wp_parse_args`: modelled as a right-biased map union; the key order of PHP arrays is not modelled, and array keys are strings. PHP's `array_merge` renumbers integer keys, and `json_decode(…, true)` turns a JSON key such as `"5"` into the integer 5, which then ends up at key 0; `ParseArgs` keeps it under `"5"`. No modelled code reads such keys.
- `die()`: a written body is the outcome `Body`; the termination of the script is not modelled.
- Floating point: `359 / max`, the product, the floor and the round are computed on exact reals, so binary rounding effects are not modelled; JSON floats are exact reals. In IEEE doubles `11 * (359 / 11)` is 358.99999999999994, so for `count == max` with `max` one of 11, 22, 44, 83, 88, 141, … the plugin answers 358, not 359; `ToDegreesSaturates` and `ToDegreesClampsOnlyAboveLimit` hold in exact arithmetic only.
- Integer width: PHP's 64-bit integers are unbounded here, so overflow of `count * 359` and of `intval` is not modelled.
- `Php.LeadingInt`: `intval` of a string reads leading whitespace, a sign and the leading digits; exponent forms such as `"1e3"`, which PHP 8 reads as 1000, are read as their leading digits.
- A division by zero is PHP 8's uncaught `DivisionByZeroError`, the outcome `DivisionByZeroError`; the warning and the infinite or NaN float of PHP 7 are not modelled.
- The settings `query`, `blog_id` and `form_id` are among the defaults but are never read by the modelled code.
