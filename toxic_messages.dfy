/**
 * The message tables, one list per toxicity level, the random pick from a
 * list and the hour-of-day choice of a greeting table.  `Math.random()` is
 * the parameter `r`, a real in [0, 1); the hour is a parameter too.
 */
module ToxicMessages {
  import opened TaskTypes

  const WakeUpMild: seq<string> := [
      "New day, new chance. Let's make it count.",
      "You showed up. That's already more than most.",
      "Ready to crush today? Let's hear the plan.",
      "Good to see you. Time to get organized."]
  const WakeUpSpicy: seq<string> := [
      "Oh look who finally decided to show up. Let's go.",
      "Another day you almost wasted sleeping. Talk.",
      "Your competition woke up 3 hours ago. What's the plan?",
      "Yesterday you said tomorrow. It's tomorrow. Speak.",
      "Nobody cares about your excuses. What are we doing today?",
      "Average people plan nothing. Prove you're not average."]
  const WakeUpBrutal: seq<string> := [
      "The world didn't wait for you. Start talking or stay losing.",
      "Time is ticking and you're still staring at your phone. Pathetic.",
      "Every second without a plan is a second wasted forever.",
      "Your dreams are dying while you debate whether to get started.",
      "Mediocrity is calling. Don't answer. Tell me the plan. NOW.",
      "While you slept, someone else took your spot. Get moving."]

  function WakeUpMessages(level: ToxicLevel): seq<string> {
    match level
    case Mild => WakeUpMild
    case Spicy => WakeUpSpicy
    case Brutal => WakeUpBrutal
  }

  const TaskCompleteMild: seq<string> := [
      "Nice work! One down, keep the momentum.",
      "Task done. You're making progress!",
      "Checked off. Every step counts."]
  const TaskCompleteSpicy: seq<string> := [
      "Finally. One down. Don't celebrate yet.",
      "That's the bare minimum. Keep moving.",
      "Done? Good. Now do the next one.",
      "One less excuse. Keep going."]
  const TaskCompleteBrutal: seq<string> := [
      "Wow, you actually did something. Shocking.",
      "One task. ONE. Don't act like you won a medal.",
      "Finished? Cool. You're still behind. Move.",
      "That took forever. Next."]

  function TaskCompleteMessages(level: ToxicLevel): seq<string> {
    match level
    case Mild => TaskCompleteMild
    case Spicy => TaskCompleteSpicy
    case Brutal => TaskCompleteBrutal
  }

  const AllDoneMild: seq<string> := [
      "All tasks done! Great work today.",
      "You crushed it! Take a well-earned break.",
      "Everything checked off. Be proud of yourself."]
  const AllDoneSpicy: seq<string> := [
      "All done. Don't get soft now.",
      "Finished already? Maybe you didn't set enough tasks.",
      "Everything done. Tomorrow better be harder."]
  const AllDoneBrutal: seq<string> := [
      "Done? Those tasks were too easy. Set harder ones.",
      "All clear. Enjoy it. Tomorrow will destroy you.",
      "You finished. Barely. Set the bar higher next time."]

  function AllDoneMessages(level: ToxicLevel): seq<string> {
    match level
    case Mild => AllDoneMild
    case Spicy => AllDoneSpicy
    case Brutal => AllDoneBrutal
  }

  const SlackingMild: seq<string> := [
      "Hey, you've got tasks waiting. Let's get back to it.",
      "Just a reminder \U{2014} you've got things to do.",
      "Your tasks are waiting patiently. Are you?"]
  const SlackingSpicy: seq<string> := [
      "You've been slacking. I can see the unfinished tasks.",
      "Those tasks aren't going to complete themselves.",
      "Still procrastinating? Classic."]
  const SlackingBrutal: seq<string> := [
      "You're wasting time and you know it.",
      "Every minute you sit here is a minute wasted. Move.",
      "Your task list is judging you. Hard."]

  function SlackingMessages(level: ToxicLevel): seq<string> {
    match level
    case Mild => SlackingMild
    case Spicy => SlackingSpicy
    case Brutal => SlackingBrutal
  }

  const EmptyDayMild: seq<string> := [
      "No plans yet? Let's fix that.",
      "A day without plans is a day without purpose. Let's plan.",
      "Ready to start? Tell me what needs to happen today."]
  const EmptyDaySpicy: seq<string> := [
      "Empty day? That's a wasted day. Speak.",
      "No tasks? No wonder you're not getting anywhere.",
      "Zero plans. Zero progress. Fix it."]
  const EmptyDayBrutal: seq<string> := [
      "NOTHING planned? You're literally choosing to fail.",
      "An empty task list is the sign of a quitter.",
      "No plans means no ambition. Prove me wrong. NOW."]

  function EmptyDayMessages(level: ToxicLevel): seq<string> {
    match level
    case Mild => EmptyDayMild
    case Spicy => EmptyDaySpicy
    case Brutal => EmptyDayBrutal
  }

  const EarlyMild: seq<string> := ["Up early? That's dedication. Let's plan."]
  const EarlySpicy: seq<string> := ["Up before dawn? You're either dedicated or desperate. Either way, let's go."]
  const EarlyBrutal: seq<string> := [
      "It's the middle of the night. Either you're grinding or you can't sleep from guilt. Talk."]

  function EarlyMessages(level: ToxicLevel): seq<string> {
    match level
    case Mild => EarlyMild
    case Spicy => EarlySpicy
    case Brutal => EarlyBrutal
  }

  const AfternoonMild: seq<string> := ["Afternoon check-in. How's the progress?"]
  const AfternoonSpicy: seq<string> := ["Half the day is gone. How much have you actually done?"]
  const AfternoonBrutal: seq<string> := [
      "It's afternoon and you're STILL not done? Embarrassing."]

  function AfternoonMessages(level: ToxicLevel): seq<string> {
    match level
    case Mild => AfternoonMild
    case Spicy => AfternoonSpicy
    case Brutal => AfternoonBrutal
  }

  const EveningMild: seq<string> := ["Evening already. Let's wrap up strong."]
  const EveningSpicy: seq<string> := ["Day's almost over. Your task list says otherwise."]
  const EveningBrutal: seq<string> := [
      "End of day. Your incomplete tasks are screaming at you."]

  function EveningMessages(level: ToxicLevel): seq<string> {
    match level
    case Mild => EveningMild
    case Spicy => EveningSpicy
    case Brutal => EveningBrutal
  }

  /** Every per-level list of every table has at least one message. */
  lemma TablesNonEmpty(level: ToxicLevel)
    ensures |WakeUpMessages(level)| > 0 && |TaskCompleteMessages(level)| > 0
    ensures |AllDoneMessages(level)| > 0 && |SlackingMessages(level)| > 0
    ensures |EmptyDayMessages(level)| > 0 && |EarlyMessages(level)| > 0
    ensures |AfternoonMessages(level)| > 0 && |EveningMessages(level)| > 0
  {
    match level
    case Mild =>
    case Spicy =>
    case Brutal =>
  }

  /** The slacking table of each level has a message to pick. */
  lemma SlackingNonEmpty(level: ToxicLevel)
    ensures |SlackingMessages(level)| > 0
  {
    match level
    case Mild =>
    case Spicy =>
    case Brutal =>
  }

  /** The two tables a completion picks from have messages at every level. */
  lemma CompletionTablesNonEmpty(level: ToxicLevel)
    ensures |AllDoneMessages(level)| > 0 && |TaskCompleteMessages(level)| > 0
  {
    match level
    case Mild =>
    case Spicy =>
    case Brutal =>
  }

  /** The four tables the greeting picks from by the hour have messages at every level. */
  lemma TimeTablesNonEmpty(level: ToxicLevel)
    ensures |EarlyMessages(level)| > 0 && |WakeUpMessages(level)| > 0
    ensures |AfternoonMessages(level)| > 0 && |EveningMessages(level)| > 0
  {
    match level
    case Mild =>
    case Spicy =>
    case Brutal =>
  }

  /** `Math.floor(r * n)` with `r = Math.random()`: always a valid index. */
  function RandomIndex(r: real, n: nat): (i: nat)
    requires 0.0 <= r < 1.0 && n > 0
    ensures i < n
    ensures i as real <= r * n as real < i as real + 1.0
  {
    assert r * n as real < n as real by {
      assert (1.0 - r) * n as real > 0.0;
    }
    (r * n as real).Floor
  }

  /** `getRandomMessage(messages)`: some entry of the list it is given. */
  function RandomMessage(messages: seq<string>, r: real): (m: string)
    requires |messages| > 0 && 0.0 <= r < 1.0
    ensures m in messages
  {
    messages[RandomIndex(r, |messages|)]
  }

  /**
   * `getTimeAwareMessage(level)`: the early table before 06:00, the wake-up
   * table before noon, the afternoon table before 17:00 and the evening
   * table after that, always the list of the requested level.
   */
  function TimeAwareMessage(level: ToxicLevel, hour: int, r: real): (m: string)
    requires 0.0 <= r < 1.0
    ensures hour < 6 ==> m in EarlyMessages(level)
    ensures 6 <= hour < 12 ==> m in WakeUpMessages(level)
    ensures 12 <= hour < 17 ==> m in AfternoonMessages(level)
    ensures 17 <= hour ==> m in EveningMessages(level)
  {
    TimeTablesNonEmpty(level);
    if hour < 6 then RandomMessage(EarlyMessages(level), r)
    else if hour < 12 then RandomMessage(WakeUpMessages(level), r)
    else if hour < 17 then RandomMessage(AfternoonMessages(level), r)
    else RandomMessage(EveningMessages(level), r)
  }
}
