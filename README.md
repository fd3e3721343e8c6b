# Account, token and validation core of a Flask authentication app

This project models the core logic of the Flask authentication app and proves properties of it. The modelled logic covers:

- **Account workflows.** The auth service registers users, confirms emails, logs users in and resets passwords. The user service creates users, checks credentials, updates whitelisted profile fields, soft- and hard-deletes accounts, updates passwords and activates accounts. The admin service lists users, deactivates and deletes them with an audit entry, and shows a filtered, sorted and limited view of the audit log. The subscription service, as written, addresses plan columns its record does not have; the model states what each of its operations returns or raises, and keeps the plan table it evidently means beside it.
- **Records.** The `User`, `Admin` and `Subscription` records, with their defaults, aliases, role checks and the subscription state rules.
- **Tokens.** Confirmation and reset tokens separated by salt, and generic tokens carrying a context tag. Both are signed with an ideal timed serializer.
- **Input validation.** The regular-expression checks, the WTForms form classes, and the session guards that sit in front of views.

The model has one Dafny module per source file. The shared pieces are:

- `Optional`: `Option`, `Outcome` for a raised `ValueError`, and `Attempt` for a raised `AttributeError`.
- `Text`: ASCII character classes, `strip`/`lower`/`upper`, `split`, and the `$` of Python regular expressions.
- `Hashing`: two ideal password hashers, bcrypt and werkzeug, whose checks parse a digest the way the libraries do and raise on one of the other scheme.
- `Serializer`: an ideal itsdangerous `URLSafeTimedSerializer`.
- `AppConfig`: the configuration keys the code reads.
- `Store`: an in-memory database holding user rows by id, the audit log as a sequence, the intended plan table, and subscription rows.

Where the source updates things in place, the model does too. Records and forms are classes whose methods assign fields. Each method's `modifies` clause names exactly the fields it may change, so "nothing else changes" is part of every such contract. The services are methods over the `Database` object and keep its table constraints (`Database.Valid`). Queries are functions.

Time is an integer number of seconds, and the current time is a parameter. Callees that the source calls but does not define are function parameters: the taken-checks, the password verifier, the plan loader, the user-token issuers and the reset-token verifier. Keyword defaults of the source (a token's "default" context, a 30-day renewal, a 3-day grace period, soft deletion, recording the login, an audit view of 100 entries) are Dafny default parameters. Mail delivery is not performed: a workflow returns the mail it hands over. For the password reset request, whether sending raised is a parameter.

In several places the code does less, or other, than an authentication system of this kind is usually expected to do. The model follows the code:

- Tokens are not stored or single-use, and issuing one does not invalidate earlier ones. The code keeps no token state: a token is valid for its whole window however often it is presented (`TokenService.ReusableWithinWindow`). A password reset does not end existing logins.
- Each user has one role string, not a set of roles, and the two role checks disagree on case: `User.is_admin` ignores case, while the session guard `admin_required` compares exactly (`Decorators.AdminCheckIsCaseSensitive`).
- There are two password hashers, not one, and a digest of one makes the other's check raise (`Hashing.SchemesDisjoint`): accounts made by the auth service carry bcrypt digests, so the user service's werkzeug check raises `ValueError` for them (`UserService.BcryptAccountsRaise`), and a werkzeug digest makes the auth service's login raise "Invalid salt" (`AuthService.Authenticate`). Registration keeps a password that starts with "$2" verbatim, as a pre-hashed digest; unless it is a "$2b$" digest, every login against it raises "Invalid salt" too (`AuthService.VerbatimPasswordUnreadable`).
- The subscription service reads and writes plan columns (name, price, duration, tier, features) that the `Subscription` model does not declare, and a `subscription_id` that `User` does not declare, so no plan operation can succeed (`SubscriptionService.PlanOperationsNeverSucceed`). `SubscriptionPlans` models the plan table the code evidently means; see Findings.

In some places the code does not do what it evidently means. The model follows the code:

- `create_user` looks a username up through the `username` property, which is not a column, so the lookup never finds a row; a taken name is caught only by the unique column at the commit and reported as a database error (`UserService.CreateUser`).
- `list_all_users` filters a username search with `User.username.ilike`, but `username` is a plain property, so a non-empty username search raises `AttributeError` (`AdminService.UsernameSearchRaises`).
- `create_user`, `authenticate_user` and `update_user_password` call token functions that `TokenService` does not define; see Left out.

## Model

| member | source | states |
|---|---|---|
| Hashing.BcryptHash | app/models/user.py:62-63 | a bcrypt digest starts with bcrypt's "$2b$" tag |
| Hashing.BcryptGenerate | app/models/user.py:62-63 | hashing raises "Password must be non-empty." exactly for the empty password, and otherwise gives the digest |
| Hashing.WerkzeugHash | app/services/user/user_service.py:44 | a werkzeug digest never starts with "$2", so it is never mistaken for a pre-hashed bcrypt value |
| Hashing.BcryptCheck | app/models/user.py:65-66 | raises "Invalid salt" exactly when the text is not a "$2b$"-tagged digest, and matches only the digest of the password given |
| Hashing.WerkzeugCheck | app/services/user/user_service.py:73 | a digest without three "$"-separated fields is refused; one that names a method other than scrypt or pbkdf2 raises "Invalid hash method '…'."; only the digest of the password given matches |
| Hashing.BcryptCheckExact | app/models/user.py:62-66 | a bcrypt digest matches exactly the password it was made from and refuses every other, without raising |
| Hashing.WerkzeugCheckExact | app/services/user/user_service.py:44-45 | a werkzeug digest matches exactly the password it was made from and refuses every other, without raising |
| Hashing.SchemesDisjoint | app/services/user/user_service.py:73 | a digest of one scheme makes the other scheme's check raise, whatever the password: "Invalid salt" from bcrypt, "Invalid hash method ''." from werkzeug |
| Serializer.Dumps | app/services/auth/token_service.py:21-36 | a dumped token is signed under exactly the given key and salt, and carries the payload and the issue time |
| Serializer.Loads | app/services/auth/token_service.py:46-54 | loading yields the payload iff the token is signed under the same key and salt and its age lies between 0 and max_age; a bad signature is reported iff the key or salt differs or the token is not a signed one |
| Serializer.LoadsDumps | app/utils/tokens.py:29-49 | round trip: a token loads back to its payload while its age is within max_age, and is expired afterwards |
| Text.BeforeFirst | app/services/auth/auth_service.py:58 | `split(sep)[0]` is the longest prefix without `sep`, and `sep` follows it when it is shorter than the text |
| Text.DropFinalNewline | app/utils/validators.py:13-14 | the `$` anchor sees the text minus at most one final newline |
| Text.StripIgnoresSurroundingSpace | app/forms/auth/register_form.py:96-108 | whitespace around a value does not change its stripped form |
| Text.StripIdempotent | app/forms/auth/register_form.py:96-108 | stripping twice is stripping once |
| Text.ToLowerIdempotent | app/forms/auth/register_form.py:96-108 | lower-casing is idempotent and leaves no upper-case letter |
| Text.ToUpperIdempotent | app/forms/profile/delete_account_form.py:70-71 | upper-casing is idempotent and leaves no lower-case letter |
| Text.LowerOfUpper | app/services/admin/admin_service.py:37-40 | lower-casing an upper-cased text equals lower-casing the original |
| Text.ToLowerStrip | app/forms/auth/login_form.py:56-68 | lower-casing commutes with stripping |
| TokenService.ConfirmationMaxAge | app/services/auth/token_service.py:46 | the confirmation lifetime is CONFIRMATION_TOKEN_EXPIRES, else 86400 seconds |
| TokenService.ResetMaxAge | app/services/auth/token_service.py:72 | the reset lifetime is RESET_TOKEN_EXPIRES, else 3600 seconds |
| TokenService.Validate | app/services/auth/token_service.py:47-54 | the shared load step yields an id iff the token is signed under the secret key and salt, carries an id payload and is within its lifetime; every failure is None |
| TokenService.GenerateConfirmationToken | app/services/auth/token_service.py:31-36 | a confirmation token is signed with the secret key under the "email-confirmation" salt, carries `{"id": user_id}` and the issue time |
| TokenService.ConfirmToken | app/services/auth/token_service.py:39-54 | yields the id iff the token is an intact, unexpired confirmation token with an id payload |
| TokenService.GenerateResetToken | app/services/auth/token_service.py:57-62 | a reset token is signed under the "password-reset" salt and carries `{"id": user_id}` |
| TokenService.ConfirmResetToken | app/services/auth/token_service.py:65-80 | yields the id iff the token is an intact, unexpired reset token with an id payload |
| TokenService.ConfirmationRoundTrip | app/services/auth/token_service.py:31-51 | a confirmation token yields its id while its age is within the lifetime, and None once expired |
| TokenService.ResetRoundTrip | app/services/auth/token_service.py:57-77 | a reset token yields its id while its age is within the lifetime, and None once expired |
| TokenService.SaltSeparation | app/services/auth/token_service.py:17-18 | a confirmation token is rejected as a reset token, and vice versa |
| TokenService.ForgedRejected | app/services/auth/token_service.py:52-54 | a token signed with another key, or not a signed token at all, yields None from both checks |
| TokenService.ReusableWithinWindow | app/services/auth/token_service.py:38-54 | nothing is consumed: two validations of one token within its window return the same id |
| Tokens.GetExpiration | app/utils/tokens.py:23-27 | the lifetime is TOKEN_EXPIRATION_SECONDS, else 3600 seconds |
| Tokens.GenerateToken | app/utils/tokens.py:29-36 | a token is signed under SECURITY_SALT (default "isrealai-token-salt") and carries the context, "default" unless given, and the data |
| Tokens.Expiration | app/utils/tokens.py:43 | an explicit max_age, even 0, wins over the configured lifetime |
| Tokens.VerifyToken | app/utils/tokens.py:38-58 | yields the data iff the token is intact, carries the requested context ("default" unless given) and is within the lifetime |
| Tokens.VerifyGenerated | app/utils/tokens.py:29-49 | round trip: a token yields its data for its own context while within the lifetime, and None afterwards |
| Tokens.ContextMismatchRejected | app/utils/tokens.py:47-52 | a correctly signed token presented for another context yields None |
| Tokens.ZeroMaxAge | app/utils/tokens.py:43-46 | with max_age 0 a token is accepted only in the second it was issued |
| Tokens.DefaultContextRoundTrip | app/utils/tokens.py:29-49 | a token issued without a context verifies without one while within the configured lifetime, and is refused for another context |
| Tokens.FamiliesSeparated | app/utils/tokens.py:47-52 | generic tokens and id tokens are never accepted as each other, whatever the salts |
| UserModel.DisplayName | app/models/user.py:91-92 | a non-empty full name wins, otherwise the fallback |
| UserModel.User.constructor | app/models/user.py:15-45 | a new user is unverified, has role "user", is active and not deleted, and has no last login |
| UserModel.User.SetIsVerified | app/models/user.py:25-30 | the `is_verified` alias writes `is_email_verified` and reads it back |
| UserModel.User.SetUsername | app/models/user.py:83-89 | the `username` alias writes `name` and reads it back |
| UserModel.User.SetPassword | app/models/user.py:62-63 | an empty password raises "Password must be non-empty." and leaves the digest; otherwise only the digest changes, and afterwards the check matches exactly the password set and refuses every other |
| UserModel.User.CheckPassword | app/models/user.py:65-66 | the bcrypt check raises exactly when the stored text is not a "$2b$"-tagged digest, and matches only the digest of the password given |
| UserModel.User.MarkLogin | app/models/user.py:69-70 | only `last_login` changes, to now |
| UserModel.User.SoftDelete | app/models/user.py:73-75 | only `is_deleted` becomes true and `is_active` false |
| UserModel.User.GetFullName | app/models/user.py:91-92 | the full name when it is non-empty, otherwise `name` |
| UserModel.User.IsAdmin | app/models/user.py:78-79 | true iff the role, ignoring case, is "admin"; such a role has five letters and is not the default role |
| UserModel.AdminRoleIgnoresCase | app/models/user.py:78-79 | `is_admin` ignores the role's case: "Admin" and "ADMIN" are admins, "user" is not |
| UserModel.DefaultRoleNotAdmin | app/models/user.py:38 | the default role is not an admin role |
| UserModel.PasswordRoundTrip | app/models/user.py:62-66 | a stored bcrypt digest matches exactly the password it was made from |
| AdminModel.RoleName | app/models/admin.py:32-37 | the stored role is "admin" or "superadmin" |
| AdminModel.Admin.constructor | app/models/admin.py:21-44 | a new admin has role "admin", is active and not deleted, and has no last login |
| AdminModel.Admin.SetPassword | app/models/admin.py:46-47 | an empty password raises and leaves the digest; otherwise only the digest changes, and the check matches exactly the password set |
| AdminModel.Admin.CheckPassword | app/models/admin.py:49-50 | the bcrypt check raises exactly when the stored text is not a "$2b$"-tagged digest, and matches only the digest of the password given |
| AdminModel.Admin.MarkLogin | app/models/admin.py:52-53 | only `last_login` changes, to now |
| AdminModel.Admin.SoftDelete | app/models/admin.py:55-57 | only `is_active` becomes false and `is_deleted` true |
| AdminModel.Admin.GetFullName | app/models/admin.py:62-63 | the full name when it is non-empty, otherwise the username |
| AdminModel.Admin.IsSuperadmin | app/models/admin.py:59-60 | true iff the role is exactly the superadmin level |
| SubscriptionModel.StatusName | app/models/subscription.py:31-35 | a stored status is "active", "canceled" or "expired" |
| SubscriptionModel.RenewedEnd | app/models/subscription.py:65-75 | a renewal counts from now when there is no end date or it has passed, otherwise from the end date; the new end is at least now plus the renewal |
| SubscriptionModel.Subscription.constructor | app/models/subscription.py:20-46 | a new subscription is active, tier "basic", starts now and has no end date |
| SubscriptionModel.Subscription.IsActive | app/models/subscription.py:48-56 | active iff the status is active and there is no end date or the end date plus the grace period, 3 days unless given, has not passed |
| SubscriptionModel.Subscription.Cancel | app/models/subscription.py:58-63 | status and cancellation time change, the end date does not, and the subscription is inactive at every time and grace period |
| SubscriptionModel.Subscription.Renew | app/models/subscription.py:65-75 | the status becomes active, the renewal time is now, the end date follows `RenewedEnd` for the duration, 30 days unless given, and a non-negative renewal is active now for every non-negative grace |
| SubscriptionModel.Subscription.DaysRemaining | app/models/subscription.py:77-83 | 0 without an end date or past it, otherwise the whole days left (floor), never negative |
| SubscriptionModel.OnlyActiveStatusIsActive | app/models/subscription.py:48-56 | a status other than active is never active |
| SubscriptionModel.ActiveMonotone | app/models/subscription.py:48-56 | a longer grace period, or an earlier moment, keeps an active subscription active |
| SubscriptionModel.DaysLeftMeansActive | app/models/subscription.py:48-83 | a subscription with whole days left is active under every non-negative grace period, the default one included |
| SubscriptionModel.RenewalStacks | app/models/subscription.py:65-75 | two renewals of a running subscription extend it by their sum |
| Store.WithoutUser | app/models/user.py:48-59 | the cascade keeps exactly the log entries of other users, and no longer log |
| Store.WithoutUserCounts | app/models/user.py:48-59 | every other user's entry is kept as often as the log holds it, and none of the deleted user's |
| Store.WithoutUserAppend | app/models/user.py:48-59 | the cascade keeps the log's order: on a concatenation it deletes from each part in place |
| Store.Database.FindByEmail | app/services/auth/auth_service.py:53 | finds a row iff one has the email, and that row is the only one with it |
| Store.Database.AddUser | app/services/user/user_service.py:44-57 | exactly one row is added under the next id, with the column defaults, and the table stays valid |
| Store.Database.InsertPlan | app/services/subscription/subscription_service.py:41-52 | the intended insert of a plan whose name is free adds exactly that plan under the next id |
| Store.Database.AddAuthEvent | app/services/auth/auth_service.py:28-37 | exactly one event with the given `event_type` and `message` is appended to the audit log |
| Store.Database.AddAdminAction | app/services/admin/admin_service.py:126-135 | exactly one action with the given `action` and `metadata` is appended to the audit log |
| Store.Database.HardDeleteUser | app/models/user.py:48-59 | the row goes, and with it exactly that user's subscriptions and audit entries |
| AuthService.RegisteredName | app/services/auth/auth_service.py:56-60 | a non-empty username is kept; otherwise the name is the part of the email before its first "@" |
| AuthService.StoredHash | app/services/auth/auth_service.py:62-66 | a password starting with "$2" is stored verbatim; the empty password raises; any other is hashed and checks exactly that password |
| AuthService.VerbatimPasswordUnreadable | app/services/auth/auth_service.py:62-64 | a password starting with "$2" but not "$2b$" is stored as it is, and every check against it raises "Invalid salt" |
| AuthService.LogEvent | app/services/auth/auth_service.py:28-37 | exactly one authentication event is appended, with its event type and message |
| AuthService.RegisterUser | app/services/auth/auth_service.py:40-87 | a taken email fails first, then an empty password raises "Password must be non-empty.", then a taken name fails; a failure changes nothing and sends nothing; success adds one unverified active user, hands over the verification mail whatever becomes of it, and logs the registration |
| AuthService.ConfirmEmail | app/services/auth/auth_service.py:90-116 | true iff the token names an existing user; that user is verified afterwards, and an entry is logged only when it was not verified before |
| AuthService.RecordLogin | app/services/auth/auth_service.py:143-152 | `last_login` becomes now and the login entry is logged |
| AuthService.Authenticate | app/services/auth/auth_service.py:119-154 | an unknown email and a wrong password give the same error, but a row whose stored text is not a "$2b$"-tagged digest (a werkzeug digest, or a "$2" password stored verbatim) makes the check raise "Invalid salt" instead; an inactive or deleted account is reported only after the password matches; `last_login` and the log change only on success with record_login, which defaults to true |
| AuthService.InitiatePasswordReset | app/services/auth/auth_service.py:157-174 | a reset mail goes out iff a usable account has the email; true iff it was sent; only then is the request logged; the users and the table constraints are kept |
| AuthService.ResetPassword | app/services/auth/auth_service.py:177-203 | succeeds iff the token names a usable user and the new password has at least 8 characters; then the digest checks exactly the new password and the reset is logged; otherwise no digest and no log entry changes |
| UserService.LastValue | app/services/user/user_service.py:94-96 | the last value given for a key, absent iff no update names it |
| UserService.UpdatesLastWins | app/services/user/user_service.py:94-96 | each reachable field ends with the last value given for its key and keeps its value when none is |
| UserService.OtherKeysIgnored | app/services/user/user_service.py:22 | updates naming only keys outside the whitelist change nothing |
| UserService.CreateUser | app/services/user/user_service.py:33-62 | a stored email fails first; a taken username is not found by the lookup and fails at the commit with a "Database error: " message; either clash adds nothing; success adds exactly one row with the given email and username and a digest that matches exactly the password |
| UserService.AuthenticateUser | app/services/user/user_service.py:64-84 | "User not found." iff no row has the email; "Incorrect password." iff the werkzeug check refuses its digest; a raised ValueError iff the check cannot read the digest; success iff it matches, with the issued token and the row's id |
| UserService.BcryptAccountsRaise | app/services/user/user_service.py:64-76 | for a row holding a bcrypt digest the werkzeug check raises "Invalid hash method ''." whatever the password, so `authenticate_user` raises for its email |
| UserService.WriteUpdates | app/services/user/user_service.py:94-96 | the `setattr` loop leaves the fields as the whitelisted updates, applied in order, make them |
| UserService.RollBack | app/services/user/user_service.py:102-105 | the rollback restores the saved columns and with them the table's validity |
| UserService.CommitProfile | app/services/user/user_service.py:98-105 | the commit succeeds iff the new email and name clash with no other row; a failure restores the saved columns |
| UserService.UpdateUserProfile | app/services/user/user_service.py:86-105 | an unknown id fails and changes nothing; otherwise only the four whitelisted fields change, to the last values given, and a unique-constraint clash fails and rolls the columns back |
| UserService.DeleteUser | app/services/user/user_service.py:107-129 | an unknown id fails and changes nothing; a soft delete, the default, clears `is_active` and leaves `is_deleted` and the row; a hard delete removes the row, exactly that user's subscriptions and audit entries, and leaves every other subscription as it was |
| UserService.GetUserProfile | app/services/user/user_service.py:131-135 | the row stored under the id, iff there is one |
| UserService.StoreHash | app/services/user/user_service.py:152-153 | only that row's digest changes, and the table stays valid |
| UserService.UpdateUserPassword | app/services/user/user_service.py:138-161 | an invalid token or an unknown email fails without touching any digest; success rewrites only that user's digest to the new password |
| UserService.ActivateUserAccount | app/services/user/user_service.py:164-177 | `is_active` becomes true and nothing else changes |
| AdminService.ListAllUsers | app/services/admin/admin_service.py:29-57 | a truthy username search raises AttributeError; otherwise exactly the stored rows that pass the active and email filters are listed, each by its summary; every filter is off unless given |
| AdminService.UsernameSearchRaises | app/services/admin/admin_service.py:39-40 | a non-empty username search raises whatever the other filters |
| AdminService.ActiveOnlyListsActive | app/services/admin/admin_service.py:35-36 | with active_only every listed account is active, and exactly the active accounts matching the email search are listed |
| AdminService.EmptySearchKeepsAll | app/services/admin/admin_service.py:37-40 | an empty search string filters, and raises, as an absent one does |
| AdminService.SearchIgnoresCase | app/services/admin/admin_service.py:37-38 | the email search ignores case |
| AdminService.SearchesCombine | app/services/admin/admin_service.py:35-38 | the active and email filters apply together: the listing is the intersection of the two single-filter listings |
| AdminService.LogAdminAction | app/services/admin/admin_service.py:126-136 | one entry is appended, with `{}` as metadata when none is given |
| AdminService.DeactivateUser | app/services/admin/admin_service.py:59-78 | an unknown id fails and changes nothing; otherwise the user is inactive and one "deactivate_user" entry is appended |
| AdminService.DeleteUser | app/services/admin/admin_service.py:80-97 | an unknown id fails and changes nothing; otherwise the row, exactly that user's subscriptions and audit entries go, every other subscription stays as it was, and one "delete_user" action is appended |
| AdminService.FilterLog | app/services/admin/admin_service.py:105-108 | the filter keeps every selected entry as often as it is logged and no other entry; an action filter selects admin actions only |
| AdminService.Insert | app/services/admin/admin_service.py:104 | inserting adds exactly one entry to the collection |
| AdminService.InsertKeepsOrder | app/services/admin/admin_service.py:104 | inserting into a newest-first sequence keeps it newest first |
| AdminService.SortNewestFirst | app/services/admin/admin_service.py:104 | the sort is a permutation and newest first |
| AdminService.ViewAuditLogs | app/services/admin/admin_service.py:99-124 | at most `limit` entries (100 unless given), exactly `limit` when enough are selected, newest first, drawn from the selected ones |
| AdminService.ViewAuditLogsSelects | app/services/admin/admin_service.py:104-110 | every entry shown is a selected entry of the log, and every selected entry left out is no newer than any shown |
| AdminService.ViewShowsAllWithinLimit | app/services/admin/admin_service.py:104-110 | with a limit no smaller than the selection, exactly the selected entries are shown |
| AdminService.DefaultViewShowsNewest | app/services/admin/admin_service.py:99-110 | without arguments the view shows the hundred newest entries of the whole log, or all of them |
| AdminService.FalsyFiltersIgnored | app/services/admin/admin_service.py:105-108 | a user id of 0 or an empty action selects as an absent one does |
| AdminService.FilterLogFalsy | app/services/admin/admin_service.py:105-108 | falsy or absent filters keep the whole log |
| SubscriptionService.CreateSubscriptionPlan | app/services/subscription/subscription_service.py:30-57 | as written, every call fails with a "Database error: " message, because the name lookup names a column `Subscription` lacks; nothing is stored |
| SubscriptionService.GetSubscriptionPlan | app/services/subscription/subscription_service.py:59-78 | an id with no subscription record gives "Subscription plan not found."; a stored one raises AttributeError at `plan.name` |
| SubscriptionService.ListAllPlans | app/services/subscription/subscription_service.py:80-104 | with no subscription record, a success with no plans and the explanatory message; with any record, AttributeError at `p.name` |
| SubscriptionService.AssignSubscriptionToUser | app/services/subscription/subscription_service.py:106-130 | a missing user is reported before a missing plan; a stored user with a stored plan id always gets "User model lacks subscription field."; it never succeeds |
| SubscriptionService.CancelUserSubscription | app/services/subscription/subscription_service.py:132-151 | a missing user is reported; a stored user always gets "User model lacks subscription field."; it never succeeds |
| SubscriptionService.PlanOperationsNeverSucceed | app/services/subscription/subscription_service.py:30-151 | no plan operation can succeed or hand out a plan, for any store and any arguments |
| SubscriptionPlans.CreateSubscriptionPlan | app/services/subscription/subscription_service.py:30-57 | intended: a taken plan name fails and adds nothing; otherwise exactly one plan with the given fields, tier "basic" and no features unless given, is added under a new id |
| SubscriptionPlans.GetSubscriptionPlan | app/services/subscription/subscription_service.py:59-78 | intended: succeeds iff the id is stored, with that plan |
| SubscriptionPlans.OnePlanPerId | app/services/subscription/subscription_service.py:85-100 | with ids matching their keys there are as many plans as ids |
| SubscriptionPlans.ListAllPlans | app/services/subscription/subscription_service.py:80-104 | intended: always a success; an empty table gives the explanatory message and no plans; otherwise one entry per stored plan |
| SubscriptionPlans.AssignSubscriptionToUser | app/services/subscription/subscription_service.py:106-130 | intended: a missing user is reported before a missing plan; success sets only the user's `subscription_id` to the plan's id; a failure changes nothing |
| SubscriptionPlans.CancelUserSubscription | app/services/subscription/subscription_service.py:132-151 | intended: an unknown user fails; otherwise the user's `subscription_id` becomes None; a failure changes nothing |
| SubscriptionService.GetUserSubscriptions | app/services/subscription/subscription_service.py:153-157 | exactly the subscriptions whose user id matches |
| SubscriptionService.NoSubscriptionsAfterCascade | app/services/subscription/subscription_service.py:153-157 | after a hard delete no subscription of that user is found |
| SubscriptionService.GetSubscriptionById | app/services/subscription/subscription_service.py:159-163 | a subscription iff the id is stored, and then the one stored under it |
| Text.AfterFirst | app/utils/validators.py:13 | the text is the part before the first separator, the separator, and this part |
| Validators.ScanHasShape | app/utils/validators.py:13 | what the scan accepts is local@label.tld with each part from its character class |
| Validators.ShapePassesScan | app/utils/validators.py:13 | every text of the form local@label.tld passes the scan |
| Validators.ValidateEmail | app/utils/validators.py:17-27 | `validate_email` accepts exactly the texts the pattern describes, less one final newline |
| Validators.AddressMatchesPattern | app/utils/validators.py:13 | the scan accepts exactly the strings of the pattern's shape |
| Validators.SecondDotRejected | app/utils/validators.py:13 | a second "." after the label makes the domain fail |
| Validators.EndsInLetter | app/utils/validators.py:13 | an address ending in its top-level part has no final newline to drop |
| Validators.DottedDomainRejected | app/utils/validators.py:17-27 | a dotted domain such as "user@mail.example.com" is refused |
| Validators.ShapedAddressAccepted | app/utils/validators.py:17-27 | every address of the shape passes, also followed by one newline |
| Validators.MessagesRanked | app/utils/validators.py:56-64 | the messages are ranked length, uppercase, lowercase, digit |
| Validators.DetailedErrorsReport | app/utils/validators.py:46-69 | each message is reported exactly when its requirement fails, at most four, and none exactly when all hold |
| Validators.DetailedErrorsOrdered | app/utils/validators.py:56-64 | the messages come in the order of the checks, each at most once |
| Validators.ValidatePasswordDetailed | app/utils/validators.py:46-69 | the appends report exactly the failing requirements, in check order, at most four; ok iff the list is empty iff the password is strong |
| Validators.ValidatePassword | app/utils/validators.py:29-44 | an accepted password has eight characters and an upper-case letter, a lower-case letter and a digit; on single-line text it is accepted iff it meets those requirements |
| Validators.NewlineDisagreements | app/utils/validators.py:14 | with a newline they disagree in both directions |
| Validators.NoSpecialRequired | app/utils/validators.py:65-67 | a password without a special character can pass both checks |
| FormRules.NormalizeIdent | app/forms/auth/register_form.py:96-108 | normalised data has no upper-case letter and is empty iff the data is blank |
| FormRules.NormalizedEndsClean | app/forms/auth/register_form.py:50-57 | normalised data never ends in a newline, so the pattern's newline allowance never applies |
| FormRules.AcceptedUsernameShape | app/forms/auth/register_form.py:48-59 | an accepted username is 3 to 30 lower-case word characters and not all digits |
| FormRules.UnderscoreIsNotSpecial | app/forms/auth/register_form.py:111-117 | "_" and " " do not count as special characters, "!" does |
| RegisterForm.RegisterForm.NormalizeFields | app/forms/auth/register_form.py:96-108 | the username and email are stripped and lower-cased; the passwords are left as typed |
| RegisterForm.RegisterForm.Validate | app/forms/auth/register_form.py:143-149 | normalises first, then accepts iff every declared rule and hook holds on the normalised data |
| RegisterForm.AcceptedRegistration | app/forms/auth/register_form.py:48-92 | an accepted registration has a 3 to 30 character lower-case word username that is not all digits, a complex 8 to 128 character password equal to its confirmation, and accepted terms |
| RegisterForm.DigitsOnlyUsernameRejected | app/forms/auth/register_form.py:119-124 | an all-digit username is refused |
| RegisterForm.NormalizationFirst | app/forms/auth/register_form.py:143-149 | case and surrounding whitespace in the username and email do not change the outcome |
| RegisterForm.PasswordNotStripped | app/forms/auth/register_form.py:96-108 | a padded password differs from an unpadded confirmation |
| RegisterForm.RequiredChecks | app/forms/auth/register_form.py:126-141 | without the terms, a digit, a special character or a matching confirmation, registration fails |
| LoginForm.LoginForm.NormalizeFields | app/forms/auth/login_form.py:56-68 | the email is stripped and lower-cased and the password stripped |
| LoginForm.LoginForm.Validate | app/forms/auth/login_form.py:82-88 | normalises first, then accepts iff the declared rules and the complexity hook hold |
| LoginForm.AcceptedLogin | app/forms/auth/login_form.py:34-51 | an accepted login has a 5 to 254 character email and a complex 8 to 128 character password |
| LoginForm.SurroundingSpaceIgnored | app/forms/auth/login_form.py:56-68 | surrounding whitespace and the email's case do not change the outcome |
| LoginForm.WeakPasswordRejected | app/forms/auth/login_form.py:70-80 | a password without a digit or a special character is refused |
| ResetPasswordForm.BlankEmailRejected | app/forms/auth/reset_password_form.py:33-40 | a missing or blank email is refused |
| ResetPasswordForm.ResetPasswordForm.NormalizeFields | app/forms/auth/reset_password_form.py:77-97 | both password fields are stripped |
| ResetPasswordForm.ResetPasswordForm.Validate | app/forms/auth/reset_password_form.py:117-124 | normalises first, then accepts iff the rules and the complexity hook hold |
| ResetPasswordForm.AcceptedNewPassword | app/forms/auth/reset_password_form.py:57-73 | an accepted password is, once stripped, 8 to 128 characters with a digit and a special character, and equals its confirmation |
| ResetPasswordForm.PaddedConfirmationMatches | app/forms/auth/reset_password_form.py:77-97 | entries that differ only in surrounding whitespace match |
| ResetPasswordForm.ComplexityRequired | app/forms/auth/reset_password_form.py:99-115 | complexity needs a digit and a non-word, non-space character |
| UpdateProfileForm.Original | app/forms/profile/update_profile_form.py:80-81 | an original is kept lower-cased, and absent exactly when it is empty |
| UpdateProfileForm.UpdateProfileForm.constructor | app/forms/profile/update_profile_form.py:75-81 | the form keeps the submitted data and the lower-cased originals |
| UpdateProfileForm.UpdateProfileForm.NormalizeFields | app/forms/profile/update_profile_form.py:83-109 | the username and email are stripped and lower-cased |
| UpdateProfileForm.UpdateProfileForm.Validate | app/forms/profile/update_profile_form.py:141-147 | normalises first, then accepts iff the rules and the uniqueness hooks hold |
| UpdateProfileForm.KeepingOwnValuesNeverClashes | app/forms/profile/update_profile_form.py:119-139 | keeping one's own username and email never consults the taken-checks |
| UpdateProfileForm.NoOriginalsNoUniquenessCheck | app/forms/profile/update_profile_form.py:119-139 | without originals uniqueness is never checked |
| UpdateProfileForm.TakenNewValueRejected | app/forms/profile/update_profile_form.py:111-125 | a changed username that is taken is refused |
| UpdateProfileForm.ProfileUsernameShape | app/forms/profile/update_profile_form.py:50-71 | an all-digit username is refused, and an accepted username and email have the declared lengths and characters |
| DeleteAccountForm.NormalizeConfirm | app/forms/profile/delete_account_form.py:70-71 | the normalised confirmation has no lower-case letter |
| DeleteAccountForm.DeleteAccountForm.NormalizeFields | app/forms/profile/delete_account_form.py:59-86 | the confirmation is stripped and upper-cased and the password stripped |
| DeleteAccountForm.DeleteAccountForm.Validate | app/forms/profile/delete_account_form.py:110-117 | normalises first, then accepts iff the rules and re-authentication hold |
| DeleteAccountForm.OnlyDeleteConfirms | app/forms/profile/delete_account_form.py:88-93 | after normalisation only "DELETE" confirms, and the six-character rule adds nothing |
| DeleteAccountForm.PaddedLowerCaseConfirms | app/forms/profile/delete_account_form.py:70-71 | any casing of "delete" with whitespace around it confirms |
| DeleteAccountForm.ReauthenticationSkippedWithoutService | app/forms/profile/delete_account_form.py:95-108 | without an auth service any present password passes |
| SubscriptionForm.Choices | app/forms/subscription/subscription_form.py:54-56 | one (str(id), display name) pair per plan, in load order |
| SubscriptionForm.LoadedChoices | app/forms/subscription/subscription_form.py:57-59 | a failed load gives no choices |
| SubscriptionForm.SubscriptionForm.constructor | app/forms/subscription/subscription_form.py:46-59 | the choices are built from the loaded plans, or are empty when loading failed |
| SubscriptionForm.SubscriptionForm.Validate | app/forms/subscription/subscription_form.py:61-68 | an accepted plan is a choice key and the user id is at least one |
| SubscriptionForm.SubscriptionForm.GetSelectedPlanId | app/forms/subscription/subscription_form.py:70-73 | the submitted plan, unchanged, and a valid choice when the form validates |
| SubscriptionForm.FailedLoadRejectsAll | app/forms/subscription/subscription_form.py:57-68 | when loading failed every submitted plan is refused |
| SubscriptionForm.AcceptedPlanIsLoaded | app/forms/subscription/subscription_form.py:61-68 | a plan is accepted iff it names the id of a loaded plan and the rest is valid |
| SubscriptionForm.UserIdAtLeastOne | app/forms/subscription/subscription_form.py:32-40 | a user id below one is refused |
| Decorators.LoginRequired | app/utils/decorators.py:21-29 | the view runs iff the session's user id is truthy |
| Decorators.AdminRequired | app/utils/decorators.py:32-40 | the view runs iff the session role is exactly "admin", otherwise a redirect to the dashboard with a message |
| Decorators.ApiAdminRequired | app/utils/decorators.py:43-50 | the view runs iff the role is exactly "admin", otherwise a 403 with an error body |
| Decorators.PreventAuthenticatedAccess | app/utils/decorators.py:53-60 | the view runs iff the user id is falsy, otherwise a redirect to the dashboard |
| Decorators.LoginGuardsComplementary | app/utils/decorators.py:21-60 | exactly one of the login guard and the signed-out guard lets a request through |
| Decorators.AdminGuardsAgree | app/utils/decorators.py:32-50 | the page and API admin guards admit the same sessions |
| Decorators.AdminCheckIsCaseSensitive | app/utils/decorators.py:32-40 | a role "Admin" counts as admin for the model but is turned away by the guard |
| Decorators.FalsyUserIdSignedOut | app/utils/decorators.py:21-29 | a zero or empty user id counts as signed out |

## Left out

- HTTP routes, blueprints, templates, the app factory and the CLI are plumbing around the core. So is the route code that calls `update_user_password` with a user id and uses `is_active` as the verified flag.
- Mail delivery (SMTP, templates, retries) is not performed. Registration returns the verification mail it hands over, and whether delivery fails has no effect on it. The reset request takes a flag saying whether sending raised.
- bcrypt, werkzeug and itsdangerous are ideal: injective tagged digests, and tokens that carry their key, salt, payload and issue time. Salting, work factors, timing and the token's text encoding are not modelled.
- Hashing.BcryptCheck: the ideal digests are exactly the "$2b$"-tagged texts. So a "$2b$" text that is not a well-formed digest is read as one instead of raising "Invalid salt", and a well-formed "$2a$" or "$2y$" digest, which bcrypt reads, raises. The application only produces "$2b$" digests.
- Database failures other than unique-constraint violations are not modelled. This covers the `SQLAlchemyError` branches and the commit failures after confirming or resetting. The model assumes every such commit succeeds.
- Logging is left out, except for audit-log entries, which are part of the store.
- The `AuditLog` model is not part of this model. Its entries are the `Store.AuditEntry` rows the services write.
- Store.AuditEntry: the two services write different columns of `AuditLog`. The model keeps them apart: an authentication event has an event type and a message, and an admin action has an action and metadata. The column defaults the other writer leaves unset are not modelled, and the view's `action` filter never selects an authentication event. Under SQLAlchemy's declarative API the attribute name `metadata` is reserved, so as written an admin action's `metadata` may not be stored, and `log.metadata` may not read it back. The model stores and returns it as a column, because the `AuditLog` class that would decide this is not part of this model.
- Callees that the code calls but does not define are function parameters:
  - `UserService.is_username_taken` and `is_email_taken`;
  - `AuthService.verify_password`;
  - `SubscriptionService.get_all_plans`;
  - the token issuers `generate_user_auth_token` and `generate_user_verification_token`;
  - `verify_password_reset_token`.
- UserService.CreateUser: `TokenService.generate_user_verification_token` is not defined, so as written the call raises `AttributeError` after the commit (user_service.py:49): the row stays and the caller gets the exception. The model returns the token an intended issuer gives. The text after "Database error: " is not modelled.
- UserService.AuthenticateUser: `TokenService.generate_user_auth_token` is not defined, so as written every correct password raises `AttributeError` (user_service.py:76). The model returns the token an intended issuer gives.
- UserService.UpdateUserPassword: `TokenService.verify_password_reset_token` is not defined, so as written every call raises `AttributeError` before a row is read (user_service.py:144). The model takes the intended verifier as a parameter.
- CSRF protection is not modelled: `FlaskForm.validate` also requires a valid CSRF token, which is on by default, so each form's `Validate` contract covers the field rules only. WTForms' `Email()` validator is a parameter. So are the chain mechanics: a form accepts when all of its declared rules and inline hooks hold after normalisation. A field that was not submitted (`None`) is the empty string. `SelectField`'s own choice check coincides with `validate_plan_name`.
- Text is ASCII: `\w`, `\d`, `\s`, `lower`, `upper`, `strip` and `isdigit` act on ASCII only, and other characters are left unchanged.
- Prices are integers; the source's floats are not modelled.
- The `onupdate` timestamps (`updated_at`) are not modelled.
- UserService.UpdateUserProfile: the `**updates` keyword arguments are a sequence of (key, value) pairs applied in order. A failed commit is reported with the "Update failed: " prefix, but the exception text after it is not modelled.
- AdminService.ListAllUsers: the raised `AttributeError` is a value, `UsernameSearchError`, not an exception. The query has no ORDER BY, so the result is a map by id and no order is stated. `ilike`'s `%` and `_` wildcards inside the search string are not modelled; searches are plain substrings.
- AdminService.ViewAuditLogs: `limit` is a natural number; a negative limit is not modelled. The ordering among entries with equal timestamps is not stated.
- SubscriptionPlans.ListAllPlans: the plans are returned as a set, because the query has no order.
- SubscriptionService.CreateSubscriptionPlan: the text after "Database error: " is not modelled.
- SubscriptionService.GetUserSubscriptions: the subscriptions are returned as a set, because the query has no order.

## Findings

| source | as written | input that shows it | evidently intended | confidence | as-written member | corrected member |
|---|---|---|---|---|---|---|
| app/services/subscription/subscription_service.py:38 | `filter_by(name=name)` on `Subscription`, which has no `name` column; building the query raises `InvalidRequestError`, reported as "Database error: …" | `create_subscription_plan("Pro", 10, 30)` on an empty database | a plan whose name is free is added; a taken name fails | not executed | `SubscriptionService.CreateSubscriptionPlan`, `SubscriptionService.PlanOperationsNeverSucceed` | `SubscriptionPlans.CreateSubscriptionPlan` |
| app/services/subscription/subscription_service.py:72 | `plan.name` is read from a `Subscription` record, which raises `AttributeError` | `get_subscription_plan(1)` with a subscription record under id 1 | the stored plan's fields are returned | not executed | `SubscriptionService.GetSubscriptionPlan` | `SubscriptionPlans.GetSubscriptionPlan` |
| app/services/subscription/subscription_service.py:92 | `p.name` is read from each `Subscription` record, which raises `AttributeError` | `list_all_plans()` with one subscription record stored | every stored plan is listed | not executed | `SubscriptionService.ListAllPlans` | `SubscriptionPlans.ListAllPlans` |
| app/services/subscription/subscription_service.py:117 | `hasattr(user, "subscription_id")` is false for every `User`, so assignment always fails | `assign_subscription_to_user(1, 1)` with user 1 and subscription record 1 stored | the user's `subscription_id` is set to the plan | not executed | `SubscriptionService.AssignSubscriptionToUser` | `SubscriptionPlans.AssignSubscriptionToUser` |
| app/services/subscription/subscription_service.py:139 | `hasattr(user, "subscription_id")` is false for every `User`, so cancelling always fails | `cancel_user_subscription(1)` with user 1 stored | the user's `subscription_id` is cleared | not executed | `SubscriptionService.CancelUserSubscription` | `SubscriptionPlans.CancelUserSubscription` |
