# bibliotech-backend in Dafny

A model of the sequential logic of the bibliotech Flask backend, with the
properties the code promises proved about it. It covers four parts.

- **Loan ledger** (`ledger.dfy`, rows in `models.dfy`). These are the tables of books, members, loans
  and fines, each row owned by one account. It models:
  - checkout: a copy must be available and the member must be `'actif'`; on success one copy
    is taken and the loan is due in 14 days;
  - return: one copy is put back, and a late return records an unpaid fine of 50 cents per
    late day;
  - paying a fine;
  - the cascade delete of an account's books and members, refused while a loan refers to one
    of them.

  Dates are integer day numbers and money is integer cents.
- **Credential lifecycle** (`auth.dfy`, `Utilisateur` in `models.dfy`). It models:
  - registration of unverified accounts with a 24-hour verification token;
  - e-mail verification, which consumes the token;
  - login gating: 401, then 403 while the account is unverified;
  - the reset-code flow: a six-digit code valid 15 minutes, only checked by `verify-reset-code`
    and consumed by a successful `reset-password-with-code`.

  Every handler reply carries the code's HTTP status and its exact message. Instants are
  integer seconds. `allowed_file` is in `uploads.dfy`.
- **Backup retention** (`naming.dfy`, `files.dfy`, `retention.dfy`, `auto_backup.dfy`,
  `backup.dfy`). The file system is a table from path to bytes and modification time, plus the set
  of directories. It models:
  - snapshot names `<prefix><YYYYMMDD_HHMMSS>.db`, with the proof that their string order is
    the order of the local wall-clock readings they were made from;
  - the cleanup both scripts share: list, filter, sort newest first by modification time, and
    remove everything after the first `keep`;
  - the automatic service: its running flag, its jobs, `start`, `stop` and `get_backup_info`, and
    the mode dispatch of `init_backup_service`;
  - the manual script's backup, restore (with its safety copy) and listing.
- **Configuration** (`config.dfy`). The rewrite of `postgres://` to `postgresql://`, the SQLite
  default, the engine options, and the secure-cookie flags of `clean.py`.

Nothing here reads a clock, a random source, the network or the disk. These become parameters:
- the current instant;
- the six random digits of a reset code;
- the verification token;
- whether an e-mail was sent;
- the file system object.

bcrypt is an ideal hash: a password checks against a stored hash exactly when it is the hashed
password. Hashing refuses an empty password with flask_bcrypt's `ValueError`, which the
register handler turns into a 400 reply. bcrypt's 72-byte limit on passwords is not modelled.

Two behaviours of the reset flow:
- `verify_reset_code` only checks the code (app.py:426-453). Only `reset_password_with_code`
  clears it (app.py:484-486).
- `forgot_password` and `resend_verification` answer an unknown e-mail with a neutral 200
  (app.py:386-389, 835). A known e-mail gets a different reply (app.py:402-405, 416-419, 838, 849),
  so the account's existence can be seen despite the comments at app.py:385 and 834.
  `verify_reset_code` and `reset_password_with_code` answer 404 "Email non trouvé"
  (app.py:438-439, 471-472).

## Model

| member | source | states |
|---|---|---|
| Config.RewriteScheme | clean.py:12-14 | a URL starting with `postgres://` becomes `postgresql://` followed by the unchanged rest; any other URL is unchanged; the result never starts with `postgres://` |
| Config.RewriteSchemeIdempotent | clean.py:13-14 | rewriting twice equals rewriting once |
| Config.DatabaseUrl | clean.py:10-14 | `DATABASE_URL` is absent exactly when the variable is, and otherwise is the rewritten value (an empty value stays empty) |
| Config.DatabaseUri | clean.py:17 | an absent or empty URL gives `sqlite:///bibliotech.db`, any other gives the rewritten URL; never a `postgres://` URI |
| Config.EngineOptionsFor | clean.py:21-27 | pool options exist exactly when `DATABASE_URL` is non-empty, with pre-ping, recycle 300, size 10, overflow 20 |
| Config.Load | clean.py:4-44 | `DATABASE_URL`, the URI and the engine options are exactly the values above (options present exactly when the URL is non-empty); session and remember cookies are secure exactly when `FLASK_ENV` is `production`; the allowed extensions are png, jpg, jpeg, gif |
| Uploads.LastDot | app.py:37 | the index of the last `.` of a name, absent exactly when the name has no `.` |
| Uploads.AllowedFile | app.py:36-37 | true exactly when the name has a `.` and the lower-cased text after the last `.` is an allowed extension |
| Uploads.AllowedFileByLastExtension | app.py:36-37 | for `stem.ext` with a dot-free `ext`, the verdict depends only on the lower-cased `ext`, whatever the stem holds |
| Uploads.UpperCaseExtensionAllowed | app.py:37 | `x.PNG` is accepted |
| Uploads.DoubleExtensionRejected | app.py:37 | `a.png.exe` is rejected |
| Uploads.NoDotRejected | app.py:37 | a name without `.` is rejected |
| Models.DigitString | models.py:47 | the joined digits have one character per draw, each the decimal digit of its draw |
| Models.DigitStringInjective | models.py:47 | different draws give different codes |
| Models.Utilisateur.constructor | app.py:724-734 | a new account is unverified, holds no code and no token, and checks against its password |
| Models.Utilisateur.CheckPassword | models.py:42-43 | true for the password last hashed into the account and for no other |
| Models.Utilisateur.SetPassword | models.py:39-40 | a non-empty password is hashed; afterwards exactly the new password checks |
| Models.Utilisateur.GenerateResetCode | models.py:45-49 | stores and returns a six-digit code made of the draws, replacing any previous one, expiring 15 minutes after `now` |
| Models.Utilisateur.GenerateVerificationToken | models.py:51-55 | stores and returns the token, replacing any previous one, expiring 24 hours after `now` |
| Models.Utilisateur.VerifyEmailToken | models.py:57-63 | true exactly when a non-empty token and an expiry are stored, `now` is not after the expiry (the expiry instant passes) and the tokens are equal |
| Auth.CheckResetCode | app.py:441-448 | a code is refused as absent, else as expired when `expiration < now`, else as incorrect, and accepted exactly when present, unexpired and equal |
| Auth.ResetCodeExpiryBoundary | app.py:444-445 | a code is accepted at its expiry instant and refused as expired one second later, even when also wrong |
| Auth.CodeRejection | app.py:441-448 | every refusal is a 400: "Aucun code de réinitialisation actif" without a code, the handler's own expiry message for an expired one, "Code incorrect" for a wrong one |
| Auth.Accounts.FindByEmail | app.py:383 | the first account with the e-mail, absent exactly when none has it |
| Auth.Accounts.FindByToken | app.py:788 | the first account holding the token, absent exactly when none holds it |
| Auth.Accounts.Register | app.py:713-775 | a known e-mail is refused with 400 and nothing changes; an empty password is refused with 400 and the hashing error, nothing changed (nor the next id); otherwise exactly one unverified account with a 24-hour token is appended and 201 is returned whether or not the mail was sent |
| Auth.Accounts.Login | app.py:858-882 | 401 for an unknown e-mail or wrong password, 403 for an unverified account, success exactly for a verified account and its password |
| Auth.Accounts.VerifyEmail | app.py:777-819 | missing token 400, unknown token 404, already verified 200 unchanged; an unexpired token verifies the account and clears token and expiry; an expired one gives 400 and nothing changes; no other account changes |
| Auth.Accounts.ResendVerification | app.py:821-856 | unknown e-mail answers 200 without change, verified account 400; otherwise only that account's token and expiry are replaced, and the reply depends on the mail |
| Auth.Accounts.ForgotPassword | app.py:374-424 | unknown e-mail answers 200 without change; otherwise only that account's code and expiry are replaced (kept even when the mail fails, answered 500) |
| Auth.Accounts.VerifyResetCode | app.py:426-453 | changes nothing; 400 without fields, 404 for an unknown e-mail; succeeds exactly when the stored code equals the given one and has not expired |
| Auth.Accounts.ResetPasswordWithCode | app.py:455-497 | missing fields, then a password under 6 characters, then an unknown e-mail are refused before the code checks; an accepted code sets the new password and clears code and expiry; every refusal changes nothing |
| Auth.Accounts.ResetCodeIsSingleUse | app.py:463-487 | after a successful reset the same code meets "Aucun code de réinitialisation actif" at any later time |
| Auth.Accounts.VerificationTokenIsSingleUse | app.py:786-803 | after a successful verification the same token finds no account (404) |
| Auth.ResetRevealsAccount | app.py:385-405 | with one account, forgot-password answers an unknown e-mail with the neutral 200 and the account's e-mail with a different reply, whether or not the mail goes out |
| Auth.ResendRevealsAccount | app.py:834-849 | with one unverified account, resend-verification answers an unknown e-mail with the neutral 200 and the account's e-mail with a different reply |
| Ledger.LateFine | app.py:1082-1085 | a fine exists exactly when the return day is after the due day, and is 50 cents per late day |
| Ledger.LateFineMonotone | app.py:1082-1085 | a later return never costs less |
| Ledger.Library.CreateLivre | app.py:912-931 | a new book has `disponibles == nombre_exemplaires`, the requested count or 1, under a fresh id; no other table changes |
| Ledger.Library.CreateMembre | app.py:976-994 | a new member is `'actif'` under a fresh id; no other table changes |
| Ledger.Library.CreateEmprunt | app.py:1039-1065 | a foreign, missing or exhausted book gives "Livre non disponible", then a foreign, missing or inactive member "Membre invalide", with nothing changed; otherwise one copy is taken and an `en_cours` loan due 14 days later is added |
| Ledger.Library.RetournerLivre | app.py:1067-1095 | a loan not reachable through the caller's books gives 404 with nothing changed; otherwise the loan is returned today, its book gains one copy, and an unpaid fine of the late fee is added exactly when late |
| Ledger.Library.PayerAmende | app.py:1103-1122 | an unknown or foreign fine gives 404 with nothing changed; otherwise only its status becomes paid |
| Ledger.Library.CascadeDeleteUtilisateur | models.py:33-34 | refused with nothing changed exactly when a loan refers to one of the account's books or members (the NOT NULL keys of `Emprunt`); otherwise removes exactly its books and members and leaves every loan's book and member in place |
| Ledger.LoanBlocksDeleteScenario | models.py:130-133 | an account whose book is on loan is not deleted and its book stays |
| Ledger.TwoCopiesScenario | app.py:1044-1059 | with two copies two checkouts succeed and the third is refused |
| Ledger.LateReturnScenario | app.py:1067-1117 | a return 14 days late gives an unpaid fine of 700 cents, and paying it twice leaves it paid |
| Ledger.DoubleReturnScenario | app.py:1067-1095 | returning one loan twice is accepted and leaves 2 available copies of a 1-copy book |
| Naming.LexMax | auto_backup.py:152 | `max(names)`: a member of the list that no member exceeds in string order |
| Naming.SortDescending | backup.py:109 | `sorted(names, reverse=True)`: a permutation in non-increasing string order |
| Naming.Digits | auto_backup.py:29 | a zero-padded decimal field has its width and only digits |
| Naming.DigitsOrder | auto_backup.py:29 | fixed-width fields compare as strings exactly as the numbers compare, and are equal exactly when the numbers are |
| Naming.Timestamp | auto_backup.py:29 | `%Y%m%d_%H%M%S` has 15 characters, digits around an underscore at index 8 |
| Naming.TimestampOrder | auto_backup.py:29 | timestamps compare as strings exactly as the wall-clock readings compare field by field, and are equal exactly for equal readings |
| Naming.BackupName | auto_backup.py:29-30 | a snapshot name starts with its prefix and ends with `.db` |
| Naming.BackupNameOrder | auto_backup.py:29-30 | names with one prefix compare as strings exactly as their wall-clock readings compare |
| Naming.MaxNameIsLatest | auto_backup.py:152-153 | the greatest of such names is that of the latest wall-clock reading |
| Files.FileSystem.MakeDirs | auto_backup.py:19 | the folder exists afterwards |
| Files.FileSystem.Copy2 | auto_backup.py:33 | copies bytes and modification time; fails and changes nothing when the source or target folder is missing or both are the same file |
| Files.FileSystem.Remove | auto_backup.py:67 | exactly that file is gone |
| Files.FileSystem.ListDir | auto_backup.py:57 | every name of the folder exactly once |
| Retention.FilterBackups | auto_backup.py:55-59 | keeps exactly the names with the prefix and `.db` suffix, without adding repetition |
| Retention.ListBackupNames | auto_backup.py:139-142 | the matching names of the folder, each once, as many as there are matching files |
| Retention.MatchingCard | auto_backup.py:150 | the count of listed names is the number of matching files |
| Retention.SortByMtime | auto_backup.py:62 | a permutation, newest modification time first |
| Retention.SortedBackups | auto_backup.py:55-62 | the matching files of the folder, each once, newest first |
| Retention.CutAtKeep | auto_backup.py:66-67 | removing what follows the first `keep` of that list is a cleanup as `PrunedFrom` states |
| Retention.PruneBackups | auto_backup.py:51-75 | only matching files are removed, others are untouched, `min(keep, n)` of the `n` matching files remain, no removed file is newer than a kept one; the count is the number removed |
| Retention.PrunedKeepsAtMost | auto_backup.py:61-69 | after a cleanup at most `keep` matching files remain, the ones not removed |
| Retention.FewBackupsUntouched | auto_backup.py:66 | with no more than `keep` matching files nothing is removed |
| Retention.OthersUntouched | auto_backup.py:55-59 | a file without the prefix or the `.db` suffix survives unchanged |
| Retention.NewestSurvives | auto_backup.py:61-69 | a strictly newest matching file survives when `keep >= 1` |
| AutoBackup.SnapshotPath | auto_backup.py:29-30 | the automatic snapshot lies in the folder and matches the cleanup filter |
| AutoBackup.AutoBackupService.constructor | auto_backup.py:12-19 | a stopped service without jobs; the backup folder exists |
| AutoBackup.AutoBackupService.CleanupOldBackups | auto_backup.py:51-75 | a cleanup with `bibliotech_auto_` and `keep_backups`; nothing changes without the folder |
| AutoBackup.AutoBackupService.CreateBackup | auto_backup.py:21-49 | false with no file written when the database is missing or the copy fails; otherwise true, the snapshot holds the database, then the folder is cleaned |
| AutoBackup.AutoBackupService.StartDailyBackup | auto_backup.py:77-89 | schedules (or replaces) `daily_backup` at the given hour and minute, 2:00 by default |
| AutoBackup.AutoBackupService.StartHourlyBackup | auto_backup.py:91-101 | schedules (or replaces) `hourly_backup` every 60 minutes |
| AutoBackup.AutoBackupService.StartIntervalBackup | auto_backup.py:103-116 | schedules (or replaces) `interval_backup`, 30 minutes by default |
| AutoBackup.AutoBackupService.Start | auto_backup.py:118-128 | a stopped service starts and takes exactly one backup; a running one changes nothing |
| AutoBackup.AutoBackupService.Stop | auto_backup.py:130-134 | the service is stopped afterwards, however often it is called |
| AutoBackup.AutoBackupService.GetBackupInfo | auto_backup.py:136-156 | the number of automatic snapshots and the greatest name among them, none exactly when there are none; 0 and none without the folder |
| AutoBackup.NewSnapshotKept | auto_backup.py:21-45 | a snapshot newer than every existing one survives its own cleanup with the database's contents |
| AutoBackup.InitBackupService | auto_backup.py:162-206 | an unknown mode returns none without a backup; otherwise a service with `keep_backups=50` is returned, running, after its first backup, holding exactly one job: `daily_backup` at `hour`/`minute` (2:00 by default), `hourly_backup` every 60 minutes, or `interval_backup` every `minutes` (30 by default) |
| Backup.SnapshotPath | backup.py:21-22 | the manual snapshot lies in `backups` and matches the cleanup filter |
| Backup.SafetyPath | backup.py:76-77 | the safety copy lies next to the live database and is not it |
| Backup.CleanupOldBackups | backup.py:43-62 | a cleanup with `bibliotech_backup_` and `keep` (10 by default); nothing changes without the folder |
| Backup.BackupDatabase | backup.py:5-41 | false with nothing written when the database is missing; otherwise the folder exists, the snapshot holds the database and the ten newest snapshots are kept |
| Backup.RestoreDatabase | backup.py:64-88 | a missing backup file gives false and no change; otherwise the safety copy is written, then the backup is copied over the database, which fails when it is the database itself |
| Backup.RestoreInstallsBackup | backup.py:82-84 | after a successful restore the database holds the backup's contents, unless the backup is the safety copy written in the same second, which the restore overwrites first (backup.py:77-78) and the database then keeps its old contents |
| Backup.RestoreKeepsPrior | backup.py:75-79 | the database's prior contents are kept in the safety copy |
| Backup.RestoreTouchesTwoFiles | backup.py:64-88 | a restore changes no file but the database and the safety copy |
| Backup.ListBackups | backup.py:90-109 | exactly the manual snapshot names, each once, in strictly decreasing string order; empty without the folder |
| Backup.ListedLatestFirst | backup.py:109 | listed snapshot names go from the latest wall-clock reading to the earliest |

## Left out

- Printing, sizes in KB and MB (`total_size_mb`), and the mail bodies and their delivery are not modelled. Delivery is a boolean parameter.
- SMTP (email_service.py), profile pictures, `cle.py`, `check_backups.py` and `Reservation` are not part of this model.
- The `to_dict` serialisers and the read-only listing routes are not modelled. A successful ledger reply is `Row(status, id)` instead of the row's JSON.
- Replies carry only the status and the message. The extra JSON fields (`email`, `dev_code`, `dev_link`, `verification_required`, `valid`) are not modelled.
- Not modelled: `update_livre`, `update_membre`, the delete routes, `update_profile`, `logout` and `me`.
- Not modelled: the `KeyError` a request without `email` or `mot_de_passe` raises in `register` and `login`, and the database errors that trigger a rollback. Request fields are plain strings, and an empty string stands for a missing value.
- The other `Utilisateur` columns are not modelled: `nom`, `prenom`, `role` and `photo_profil`.
- Auth.Accounts.VerificationTokenIsSingleUse: requires that no two accounts hold the same token. `secrets.token_urlsafe(32)` makes a clash negligible, but the code does not enforce it.
- Naming.DateTime: years are limited to 1000-9999, where `%Y` prints four digits. Calendar validity, such as 31 February, is not checked.
- The scheduler's threads and the later firings of jobs are not modelled. Nor is APScheduler's own check of cron fields: a job is recorded with its trigger.
- AutoBackup.AutoBackupService.constructor: `keep_backups` is a natural number. Python's slicing with a negative `keep` is not modelled.
- Backup.CleanupOldBackups: same as above, for a negative `keep`.
- Paths are compared as written. `os.path` normalisation, links and `os.path.samefile` aliasing are not modelled.
- `os.listdir` here lists files only. A subdirectory with a matching name, and an `os.remove` failing partway through a cleanup, are not modelled.
- `restore_database` on a backup path that is a directory is not modelled.
- Files.FileSystem.Copy2: it fails only on a missing source, a missing target folder, or source equal to target. Permission and disk errors are not modelled.
- Ledger: the double return of a loan and the independence of `disponibles` from `nombre_exemplaires` are kept as the code has them. No invariant between the two counts is claimed.
- Naming.TimestampOrder: the order proved is that of local wall-clock readings. When the clock is set back, as at the end of daylight saving time, a later snapshot can get a smaller name, and `max(backups)` then names an older one. Clock changes are not modelled.
- Ledger.Library.CascadeDeleteUtilisateur: `Reservation` rows, which also refer to books and members, are not modelled, so a reservation does not block the delete here.
- AutoBackup.InitBackupService: the returned service stands in for the module global `backup_service`, which is assigned before the mode is checked and which the application reads to register `stop` at exit. After an unknown mode that global holds an unstarted service; stopping it does nothing.
