/** The course catalogue section: the hard-coded courses and the badge
    style chosen from a course's level. */
module Courses {

  /** A course card; the description, image, duration, student count,
      rating, price, category and gradient are display-only and left out */
  datatype Course = Course(id: nat, title: string, level: string, instructor: string)

  const Catalogue: seq<Course> := [
    Course(1, "Advanced React Development", "Advanced", "Sarah Chen"),
    Course(2, "Machine Learning Fundamentals", "Intermediate", "Dr. Michael Rodriguez"),
    Course(3, "3D Design with Blender", "Beginner", "Alex Thompson"),
    Course(4, "Cloud Architecture on AWS", "Advanced", "Jennifer Kim"),
    Course(5, "UI/UX Design Mastery", "Intermediate", "Emma Wilson"),
    Course(6, "Blockchain Development", "Advanced", "David Park")
  ]

  const BeginnerBadge := "bg-green-500/20 text-green-400 border-green-500/30"
  const IntermediateBadge := "bg-yellow-500/20 text-yellow-400 border-yellow-500/30"
  const AdvancedBadge := "bg-red-500/20 text-red-400 border-red-500/30"
  const DefaultBadge := "bg-gray-500/20 text-gray-400 border-gray-500/30"

  const NamedLevels: set<string> := {"Beginner", "Intermediate", "Advanced"}

  /** `getLevelColor`: each named level has its own badge, any other string
      gets the gray one */
  function LevelColor(level: string): (badge: string)
    ensures badge == BeginnerBadge <==> level == "Beginner"
    ensures badge == IntermediateBadge <==> level == "Intermediate"
    ensures badge == AdvancedBadge <==> level == "Advanced"
    ensures badge == DefaultBadge <==> level !in NamedLevels
  {
    BadgesDistinct();
    match level
    case "Beginner" => BeginnerBadge
    case "Intermediate" => IntermediateBadge
    case "Advanced" => AdvancedBadge
    case _ => DefaultBadge
  }

  /** The four badge classes are pairwise distinct */
  lemma BadgesDistinct()
    ensures |{BeginnerBadge, IntermediateBadge, AdvancedBadge, DefaultBadge}| == 4
  {
  }

  /** Every listed course has a named level, so no card gets the default badge */
  lemma CatalogueLevelsNamed()
    ensures forall c :: c in Catalogue ==> c.level in NamedLevels && LevelColor(c.level) != DefaultBadge
  {
  }
}
