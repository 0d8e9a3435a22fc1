/** Account rules of the user service (AuthService.java): sign-up with
    unique usernames and emails, changing a username or email without
    colliding with another account, and the daily login streak. Dates are
    day numbers; the time of day plays no part. */
module AuthService {
  import opened Common

  /** The rating every new account starts with. */
  const DefaultRating: int := 250

  /** A user row. `lastLoginDay` is the day of the last login, if any. */
  datatype User = User(
    username: string, emailId: string, password: string, rating: int,
    streak: int, lastLoginDay: Option<int>)

  /** The streak after a login on `today`: the first login starts it at 1, a
      login the day after the last one extends it, a later one restarts it
      at 1, and another login on the same day (or a clock set back) leaves
      it as it was. */
  function NextStreak(streak: int, lastLoginDay: Option<int>, today: int): (s: int)
    ensures lastLoginDay.None? ==> s == 1
    ensures lastLoginDay.Some? && today - lastLoginDay.value == 1 ==> s == streak + 1
    ensures lastLoginDay.Some? && today - lastLoginDay.value > 1 ==> s == 1
    ensures lastLoginDay.Some? && today - lastLoginDay.value <= 0 ==> s == streak
  {
    if lastLoginDay.None? then 1
    else
      var daysBetween := today - lastLoginDay.value;
      if daysBetween == 1 then streak + 1
      else if daysBetween > 1 then 1
      else streak
  }

  /** A user who has logged in before has a streak of at least one. */
  predicate StreakConsistent(u: User)
  {
    u.lastLoginDay.Some? ==> u.streak >= 1
  }

  /** A login keeps the streak consistent, whatever day it happens on, as
      long as the stored streak was never negative. */
  lemma LoginKeepsStreakConsistent(u: User, today: int)
    requires StreakConsistent(u) && u.streak >= 0
    ensures NextStreak(u.streak, u.lastLoginDay, today) >= 1
    ensures StreakConsistent(u.(streak := NextStreak(u.streak, u.lastLoginDay, today), lastLoginDay := Some(today)))
  {
  }

  /** Logging in daily for `n` days after a first login gives a streak of
      `n + 1`; the streak counts consecutive days. */
  lemma {:induction false} ConsecutiveLogins(first: int, n: nat)
    ensures StreakAfterDailyLogins(first, n) == n + 1
  {
    if n > 0 {
      ConsecutiveLogins(first, n - 1);
    }
  }

  /** The streak after a first login on day `first` and one login on each
      of the `n` following days. */
  function StreakAfterDailyLogins(first: int, n: nat): int
  {
    if n == 0 then NextStreak(0, None, first)
    else NextStreak(StreakAfterDailyLogins(first, n - 1), Some(first + n - 1), first + n)
  }

  /** The user table, keyed by the generated user id. */
  class UserStore {
    var users: map<int, User>
    var nextId: int

    /** Ids are below the counter, and no two accounts share a username or
        an email. */
    ghost predicate Valid()
      reads this
    {
      nextId >= 1 &&
      (forall id :: id in users ==> 1 <= id < nextId) &&
      (forall i, j :: i in users && j in users && i != j ==>
         users[i].username != users[j].username && users[i].emailId != users[j].emailId)
    }

    /** `getUserByUsername(name) != null`. */
    ghost predicate UsernameTaken(name: string)
      reads this
    {
      exists id :: id in users && users[id].username == name
    }

    /** `getUserByEmailId(email) != null`. */
    ghost predicate EmailTaken(email: string)
      reads this
    {
      exists id :: id in users && users[id].emailId == email
    }

    constructor ()
      ensures Valid() && users == map[]
    {
      users := map[];
      nextId := 1;
    }

    /** `userRepo.save` of a new row: the unique username and email columns
        refuse a duplicate, and otherwise the row gets the next id. */
    method Insert(u: User) returns (ok: bool)
      requires Valid()
      modifies this
      ensures Valid()
      ensures ok <==> !old(UsernameTaken(u.username)) && !old(EmailTaken(u.emailId))
      ensures ok ==> old(nextId) !in old(users) && users == old(users)[old(nextId) := u]
      ensures !ok ==> users == old(users)
    {
      if id :| id in users && (users[id].username == u.username || users[id].emailId == u.emailId) {
        return false;
      }
      users := users[nextId := u];
      nextId := nextId + 1;
      return true;
    }

    /** save (sign-up): a taken username is refused first, then a taken
        email, with nothing stored. Otherwise the account is stored under a
        new id with its password encoded and the default rating. */
    method Save(user: User, encode: string -> string) returns (r: Result<User>)
      requires Valid()
      modifies this
      ensures Valid()
      ensures old(UsernameTaken(user.username)) ==> r == Err("Username already exists")
      ensures !old(UsernameTaken(user.username)) && old(EmailTaken(user.emailId)) ==>
                r == Err("Email already registered")
      ensures !old(UsernameTaken(user.username)) && !old(EmailTaken(user.emailId)) ==> r.Ok?
      ensures r.Err? ==> users == old(users) && nextId == old(nextId)
      ensures r.Ok? ==>
                !old(UsernameTaken(user.username)) && !old(EmailTaken(user.emailId)) &&
                r.value == user.(password := encode(user.password), rating := DefaultRating) &&
                old(nextId) !in old(users) && users == old(users)[old(nextId) := r.value]
    {
      if id :| id in users && users[id].username == user.username {
        return Err("Username already exists");
      }
      if id :| id in users && users[id].emailId == user.emailId {
        return Err("Email already registered");
      }
      var saved := user.(password := encode(user.password), rating := DefaultRating);
      users := users[nextId := saved];
      nextId := nextId + 1;
      r := Ok(saved);
    }

    /** updateUser: the account must exist; a new username is checked only
        when it differs from the old one, a new email only when it differs
        from the account's; then exactly the username and email change. */
    method UpdateUser(oldUsername: string, newUsername: string, newEmail: string) returns (r: Result<User>)
      requires Valid()
      modifies this`users
      ensures Valid()
      ensures !old(UsernameTaken(oldUsername)) ==> r == Err("User not found")
      ensures old(UsernameTaken(oldUsername)) && oldUsername != newUsername && old(UsernameTaken(newUsername)) ==>
                r == Err("Username already exists")
      ensures r.Err? ==> users == old(users)
      ensures r.Ok? ==>
                exists id :: id in old(users) && old(users)[id].username == oldUsername &&
                  (oldUsername != newUsername ==> !old(UsernameTaken(newUsername))) &&
                  (old(users)[id].emailId != newEmail ==> !old(EmailTaken(newEmail))) &&
                  r.value == old(users)[id].(username := newUsername, emailId := newEmail) &&
                  users == old(users)[id := r.value]
      ensures r == Err("Email already registered") ==>
                exists id :: id in old(users) && old(users)[id].username == oldUsername &&
                  old(users)[id].emailId != newEmail && old(EmailTaken(newEmail))
      ensures old(UsernameTaken(oldUsername)) && !(oldUsername != newUsername && old(UsernameTaken(newUsername))) ==>
                r.Ok? || r == Err("Email already registered")
    {
      if id :| id in users && users[id].username == oldUsername {
        var user := users[id];
        if oldUsername != newUsername {
          if other :| other in users && users[other].username == newUsername {
            return Err("Username already exists");
          }
        }
        if user.emailId != newEmail {
          if other :| other in users && users[other].emailId == newEmail {
            return Err("Email already registered");
          }
        }
        var updated := user.(username := newUsername, emailId := newEmail);
        users := users[id := updated];
        r := Ok(updated);
      } else {
        return Err("User not found");
      }
    }

    /** updateStreak: the login on `today` moves the streak on and records
        the day; nothing else about the account changes. */
    method UpdateStreak(id: int, today: int)
      requires Valid() && id in users
      modifies this`users
      ensures Valid()
      ensures users == old(users)[id := old(users)[id].(
                streak := NextStreak(old(users)[id].streak, old(users)[id].lastLoginDay, today),
                lastLoginDay := Some(today))]
      ensures StreakConsistent(old(users)[id]) && old(users)[id].streak >= 0 ==> StreakConsistent(users[id])
    {
      var user := users[id];
      var streak := NextStreak(user.streak, user.lastLoginDay, today);
      users := users[id := user.(streak := streak, lastLoginDay := Some(today))];
      if StreakConsistent(user) && user.streak >= 0 {
        LoginKeepsStreakConsistent(user, today);
      }
    }
  }
}
